/** Recovery over whole runs: any order of recovery commands, broker admissions, other commands and
    crashes. */
module RecoveryRuns {

  import opened Outcomes
  import opened Recovery

  /** Where the broker is in admitting a run. It reads the queue, then the recovery record, and then
      starts what it picked, in three transactions. */
  datatype Broker = Stopped | Idle | Loaded(queued: set<string>) | Picked(run: string)

  /** `proofs` are the runs that `submit_proof` inserted since `prepare`, in order. */
  datatype System = System(spool: Spool, broker: Broker, proofs: seq<string>)

  // ---------------------------------------------------------------- steps

  ghost predicate Prepares(before: System, after: System) {
    before.broker.Stopped? && PrepareStep(before.spool, after.spool) && after == System(after.spool, Stopped, [])
  }

  ghost predicate Submits(before: System, after: System) {
    exists id :: SubmitStep(before.spool, after.spool, id)
        && after == before.(spool := after.spool, proofs := before.proofs + [id])
  }

  ghost predicate Completes(before: System, after: System) {
    CompleteStep(before.spool, after.spool) && after == before.(spool := after.spool)
  }

  ghost predicate Parks(before: System, after: System) {
    (ParkStep(before.spool, after.spool) || ExhaustStep(before.spool, after.spool))
        && after == before.(spool := after.spool)
  }

  function Start(rows: map<string, Row>, id: string): map<string, Row> {
    if id in rows && rows[id].status.Queued? then rows[id := rows[id].(status := Running)] else rows
  }

  ghost predicate Admits(before: System, after: System) {
    match before.broker
    case Stopped => after == before.(broker := Idle)
    case Idle =>
      exists queued: set<string> ::
        && (forall id :: id in queued ==> id in before.spool.rows && before.spool.rows[id].status.Queued?)
        && after == before.(broker := Loaded(queued))
    case Loaded(queued) =>
      after == before.(broker := Idle) || exists id ::
          id in queued && Eligible(before.spool, id) && after == before.(broker := Picked(id))
    case Picked(id) =>
      after == before.(broker := Idle, spool := before.spool.(rows := Start(before.spool.rows, id)))
  }

  ghost predicate Crashes(before: System, after: System) {
    after == before.(broker := Stopped)
  }

  /** A row only moves towards its end, and an ended row stays as it is. */
  ghost predicate RowAdvances(before: Row, after: Row) {
    match before.status
    case Queued => !after.status.Running?
    case Running => !after.status.Queued?
    case _ => after == before
  }

  /** Everything outside recovery: cancellation, the broker finishing runs, and, while no recovery is
      active, submission, draining, resuming and clearing. */
  ghost predicate Elsewhere(before: System, after: System) {
    && after.broker == before.broker && after.proofs == before.proofs
    && after.spool.recovery == before.spool.recovery && after.spool.last == before.spool.last
    && (forall id :: id in before.spool.rows && id in after.spool.rows ==>
        RowAdvances(before.spool.rows[id], after.spool.rows[id]))
    && if before.spool.recovery.Some? then
         after.spool.marker == before.spool.marker && after.spool.guards == before.spool.guards
         && after.spool.rows.Keys == before.spool.rows.Keys
       else
         && (forall id :: id in after.spool.rows && id !in before.spool.rows ==> after.spool.rows[id].status.Queued?)
         && (forall id :: id in before.spool.rows && id !in after.spool.rows ==> !Live(before.spool.rows[id]))
         && CurrentRecord(after.spool) == Ok(None)
  }

  ghost predicate Step(before: System, after: System) {
    || Prepares(before, after)
    || Submits(before, after)
    || Completes(before, after)
    || Parks(before, after)
    || Admits(before, after)
    || Crashes(before, after)
    || Elsewhere(before, after)
  }

  // ---------------------------------------------------------------- invariant

  ghost predicate ProofsOk(spool: Spool, record: Record, proofs: seq<string>) {
    && |proofs| == record.attempts
    && record.proof == (if proofs == [] then None else Some(proofs[|proofs| - 1]))
    && (forall k :: 0 <= k < |proofs| ==> proofs[k] in spool.rows)
    && (forall j, k :: 0 <= j < k < |proofs| ==> proofs[j] != proofs[k])
    && (forall k :: 0 <= k < |proofs| - 1 ==> !Live(spool.rows[proofs[k]]))
    && (record.phase.Guarded? ==> proofs == [])
    && (!record.phase.Verifying? && proofs != [] ==> !spool.rows[proofs[|proofs| - 1]].status.Queued?)
  }

  /** Work that a drained spool did not have is proof work. */
  ghost predicate DrainedOk(spool: Spool, record: Record, proofs: seq<string>) {
    record.drain.Some? && record.drain.value.state.Drained? ==>
      forall id :: id in spool.rows && Live(spool.rows[id]) ==> id in proofs
  }

  ghost predicate PickOk(system: System) {
    system.broker.Picked? && system.spool.recovery.Some?
    && system.broker.run in system.spool.rows && system.spool.rows[system.broker.run].status.Queued? ==>
      system.spool.recovery.value.proof == Some(system.broker.run)
  }

  ghost predicate Inv(system: System) {
    && Consistent(system.spool)
    && PickOk(system)
    && (system.spool.recovery.Some? ==>
          && ProofsOk(system.spool, system.spool.recovery.value, system.proofs)
          && DrainedOk(system.spool, system.spool.recovery.value, system.proofs))
  }

  lemma PrepareKeepsInv(before: System, after: System)
    requires Inv(before) && Prepares(before, after)
    ensures Inv(after)
  {
    assert CurrentMarker(after.spool) == Ok(after.spool.marker);
  }

  /** The proof that a new one replaces has ended. */
  lemma ReplacedProofEnded(spool: Spool, record: Record, proofs: seq<string>)
    requires ProofsOk(spool, record, proofs) && !ProofStands(spool, record) && proofs != []
    requires !SomeRunning(spool.rows)
    ensures !Live(spool.rows[proofs[|proofs| - 1]])
  {
  }

  lemma SubmitKeepsInv(before: System, after: System)
    requires Inv(before) && Submits(before, after)
    ensures Inv(after)
  {
    var record := before.spool.recovery.value;
    if before.proofs != [] {
      ReplacedProofEnded(before.spool, record, before.proofs);
    }
    assert DrainedOk(before.spool, record, before.proofs);
    var id :| SubmitStep(before.spool, after.spool, id)
        && after == before.(spool := after.spool, proofs := before.proofs + [id]);
    assert forall k :: 0 <= k < |before.proofs| ==> after.proofs[k] == before.proofs[k] && before.proofs[k] != id;
    assert ProofsOk(after.spool, after.spool.recovery.value, after.proofs);
    assert forall other :: other in before.proofs ==> other in after.proofs;
    assert after.proofs[|before.proofs|] == id;
    assert DrainedOk(after.spool, after.spool.recovery.value, after.proofs);
  }

  lemma CompleteKeepsInv(before: System, after: System)
    requires Inv(before) && Completes(before, after)
    ensures Inv(after)
  {
  }

  lemma ParkKeepsInv(before: System, after: System)
    requires Inv(before) && Parks(before, after)
    ensures Inv(after)
  {
  }

  lemma AdmitKeepsInv(before: System, after: System)
    requires Inv(before) && Admits(before, after)
    ensures Inv(after)
  {
  }

  lemma ElsewhereKeepsInv(before: System, after: System)
    requires Inv(before) && Elsewhere(before, after)
    ensures Inv(after)
  {
  }

  lemma StepKeepsInv(before: System, after: System)
    requires Inv(before) && Step(before, after)
    ensures Inv(after)
  {
    if Prepares(before, after) {
      PrepareKeepsInv(before, after);
    } else if Submits(before, after) {
      SubmitKeepsInv(before, after);
    } else if Completes(before, after) {
      CompleteKeepsInv(before, after);
    } else if Parks(before, after) {
      ParkKeepsInv(before, after);
    } else if Admits(before, after) {
      AdmitKeepsInv(before, after);
    } else if Elsewhere(before, after) {
      ElsewhereKeepsInv(before, after);
    }
  }

  // ---------------------------------------------------------------- whole runs

  ghost predicate StepAt(run: seq<System>, i: nat)
    requires i + 1 < |run|
  {
    Step(run[i], run[i + 1])
  }

  ghost predicate Run(run: seq<System>) {
    && run != [] && Inv(run[0])
    && forall i :: 0 <= i < |run| - 1 ==> StepAt(run, i)
  }

  lemma {:induction false} RunKeepsInv(run: seq<System>, i: nat)
    requires Run(run) && i < |run|
    ensures Inv(run[i])
  {
    if i > 0 {
      RunKeepsInv(run, i - 1);
      assert StepAt(run, i - 1);
      StepKeepsInv(run[i - 1], run[i]);
    }
  }

  ghost predicate Begins(before: System, after: System, id: string) {
    && id in before.spool.rows && before.spool.rows[id].status.Queued?
    && id in after.spool.rows && after.spool.rows[id].status.Running?
  }

  /** While a recovery is active the only run that goes from queued to running is the recorded proof. */
  lemma OnlyTheProofBegins(run: seq<System>, i: nat, id: string)
    requires Run(run) && i + 1 < |run| && Begins(run[i], run[i + 1], id)
    ensures run[i].spool.recovery.None? || run[i].spool.recovery.value.proof == Some(id)
  {
    RunKeepsInv(run, i);
    assert StepAt(run, i);
  }

  /** As many proofs were inserted as attempts are counted, at most three, and all but the last have ended. */
  lemma OneLiveProof(run: seq<System>, i: nat)
    requires Run(run) && i < |run| && run[i].spool.recovery.Some?
    ensures |run[i].proofs| == run[i].spool.recovery.value.attempts <= MAX_ATTEMPTS
    ensures forall j, k :: 0 <= j < k < |run[i].proofs| ==>
              run[i].proofs[j] != run[i].proofs[k]
              && run[i].proofs[j] in run[i].spool.rows && !Live(run[i].spool.rows[run[i].proofs[j]])
  {
    RunKeepsInv(run, i);
  }

  /** The guards are there exactly when the marker is. */
  lemma GuardsFollowTheMarker(run: seq<System>, i: nat)
    requires Run(run) && i < |run|
    ensures run[i].spool.guards == if run[i].spool.marker.Some? then GUARDS else {}
    ensures run[i].spool.recovery.Some? <==> run[i].spool.marker.Some? && run[i].spool.marker.value.state.Recovering?
  {
    RunKeepsInv(run, i);
  }

  // ---------------------------------------------------------------- exhaustion

  ghost predicate Exhausted(spool: Spool, id: string) {
    && spool.recovery.Some? && spool.recovery.value.id == id
    && spool.recovery.value.phase.Parked? && spool.recovery.value.attempts == MAX_ATTEMPTS
  }

  lemma ExhaustedStays(run: seq<System>, i: nat, id: string)
    requires Run(run) && i + 1 < |run| && Exhausted(run[i].spool, id)
    ensures Exhausted(run[i + 1].spool, id)
  {
    assert StepAt(run, i);
  }

  lemma ExhaustedBeginsNothing(run: seq<System>, i: nat, id: string, runId: string)
    requires Run(run) && i + 1 < |run| && Exhausted(run[i].spool, id)
    ensures !Begins(run[i], run[i + 1], runId)
  {
    RunKeepsInv(run, i);
    assert StepAt(run, i);
  }

  lemma {:induction false} ExhaustedLasts(run: seq<System>, i: nat, j: nat, id: string)
    requires Run(run) && i <= j < |run| && Exhausted(run[i].spool, id)
    ensures Exhausted(run[j].spool, id)
    decreases j
  {
    if i < j {
      ExhaustedLasts(run, i, j - 1, id);
      ExhaustedStays(run, j - 1, id);
    }
  }

  /** Parked after three attempts is final: no step leaves it, and no run is admitted again. */
  lemma ExhaustedIsFinal(run: seq<System>, i: nat, j: nat, id: string, runId: string)
    requires Run(run) && i <= j && j + 1 < |run| && Exhausted(run[i].spool, id)
    ensures Exhausted(run[j + 1].spool, id) && !Begins(run[j], run[j + 1], runId)
  {
    ExhaustedLasts(run, i, j, id);
    ExhaustedStays(run, j, id);
    ExhaustedBeginsNothing(run, j, id, runId);
  }

  // ---------------------------------------------------------------- conservation

  /** No command of recovery changes a row that was there, except the recorded proof's. */
  lemma OtherRowsStay(before: System, after: System, id: string)
    requires Inv(before) && (Prepares(before, after) || Submits(before, after) || Parks(before, after)
                             || Completes(before, after))
    requires id in before.spool.rows
    requires before.spool.recovery.Some? ==> before.spool.recovery.value.proof != Some(id)
    ensures id in after.spool.rows && after.spool.rows[id] == before.spool.rows[id]
  {
  }

  ghost predicate Recovered(run: seq<System>, i: nat, j: nat)
    requires i < j < |run|
  {
    forall k :: i < k <= j ==> run[k].spool.recovery.Some?
  }

  /** Through the whole recovery the record keeps the drain that `prepare` found. */
  lemma {:induction false} RecordKeepsTheDrain(run: seq<System>, i: nat, j: nat)
    requires Run(run) && i < j < |run| && Prepares(run[i], run[i + 1]) && Recovered(run, i, j)
    ensures run[j].spool.recovery.value.drain == run[i].spool.marker
    decreases j
  {
    if i + 1 < j {
      RecordKeepsTheDrain(run, i, j - 1);
      assert StepAt(run, j - 1);
    }
  }

  /** What `complete` leaves is what `prepare` found: no marker and no guards, or the same drain, which is
      drained exactly when no work is left, and is drained again when it was drained before. */
  lemma DrainComesBack(run: seq<System>, i: nat, j: nat)
    requires Run(run) && i < j && j + 1 < |run| && Recovered(run, i, j)
    requires Prepares(run[i], run[i + 1]) && Completes(run[j], run[j + 1])
    ensures run[j + 1].spool.marker.Some? <==> run[i].spool.marker.Some?
    ensures run[i].spool.marker.Some? ==>
              var found, restored := run[i].spool.marker.value, run[j + 1].spool.marker.value;
              && restored == found.(state := restored.state)
              && (restored.state.Drained? <==> !SomeLive(run[j + 1].spool.rows))
              && (found.state.Drained? ==> restored.state.Drained?)
    ensures run[j + 1].spool.guards == run[i].spool.guards
    ensures run[j + 1].spool.rows == run[j].spool.rows
  {
    RecordKeepsTheDrain(run, i, j);
    RunKeepsInv(run, i);
    RunKeepsInv(run, j);
    RunKeepsInv(run, j + 1);
    var before := run[j];
    if run[i].spool.marker.Some? && run[i].spool.marker.value.state.Drained? {
      NothingIsLeft(before);
    }
  }

  /** At the completion of a recovery that began drained, no work is left. */
  lemma NothingIsLeft(system: System)
    requires Inv(system) && system.spool.recovery.Some?
    requires var record := system.spool.recovery.value;
             && record.drain.Some? && record.drain.value.state.Drained?
             && record.proof.Some? && record.proof.value in system.spool.rows
                && ProofHolds(system.spool.rows[record.proof.value])
    ensures !SomeLive(system.spool.rows)
  {
    var proofs := system.proofs;
    forall id | id in system.spool.rows
      ensures !Live(system.spool.rows[id])
    {
      if id in proofs {
        var k :| 0 <= k < |proofs| && proofs[k] == id;
        assert k == |proofs| - 1 || k < |proofs| - 1;
      }
    }
  }

  ghost predicate NoRecovery(run: seq<System>, i: nat, j: nat)
    requires i < j < |run|
  {
    forall k :: i < k <= j ==> run[k].spool.recovery.None?
  }

  ghost predicate Retained(run: seq<System>, i: nat, j: nat, id: string)
    requires i < j < |run|
  {
    forall k :: i < k <= j ==> id in run[k].spool.rows
  }

  lemma CompletionStays(run: seq<System>, i: nat)
    requires Run(run) && i + 1 < |run| && run[i].spool.recovery.None? && run[i + 1].spool.recovery.None?
    ensures run[i + 1].spool.last == run[i].spool.last
    ensures forall id :: id in run[i].spool.rows && ProofHolds(run[i].spool.rows[id]) && id in run[i + 1].spool.rows ==>
              ProofHolds(run[i + 1].spool.rows[id])
  {
    assert StepAt(run, i);
  }

  /** Until another recovery begins, `complete` can be repeated exactly while the proof row is retained,
      and reports the completion that was stored. */
  lemma {:induction false} CompletionRepeats(run: seq<System>, i: nat, j: nat)
    requires Run(run) && i < j < |run| && Completes(run[i], run[i + 1]) && NoRecovery(run, i, j)
    ensures run[j].spool.last == run[i + 1].spool.last && run[j].spool.last.Some?
    ensures var last := run[j].spool.last.value;
            && (Retained(run, i, j, last.completion.proof) ==> Repeatable(run[j].spool, last.record.id))
            && (Repeatable(run[j].spool, last.record.id) ==> last.completion.proof in run[j].spool.rows)
    decreases j
  {
    RunKeepsInv(run, j);
    if i + 1 < j {
      CompletionRepeats(run, i, j - 1);
      CompletionStays(run, j - 1);
      if Retained(run, i, j, run[j].spool.last.value.completion.proof) {
        assert Retained(run, i, j - 1, run[j].spool.last.value.completion.proof);
      }
    }
  }
}
