/** Guarded host recovery: from `prepare` to `complete` the spool admits one recorded proof job and
    nothing else, and hands back the maintenance drain it found. */
module Recovery {

  import opened Outcomes

  const MAX_ATTEMPTS: nat := 3
  const MAX_REASON: nat := 256
  const RECOVERY_REASON := "guarded native host recovery"

  // ---------------------------------------------------------------- rows and metadata

  datatype Status = Queued | Running | Passed | Failed | Cancelled | Interrupted

  /** The part of a run row that recovery reads or writes; units are those of the resource `cpu`. */
  datatype Row = Row(status: Status, exit: Option<int>, requested: Option<nat>, applied: Option<nat>, peak: Option<nat>,
                     cancelRequested: bool, reason: Option<string>)

  datatype MarkerState = Draining | Drained | Recovering

  datatype Marker = Marker(state: MarkerState, id: string, reason: string, startedAt: nat)

  /** The triggers that refuse submissions while a marker is present. */
  datatype Trigger = RejectRuns | RejectActivityInsert | RejectActivityUpdate

  const GUARDS: set<Trigger> := {RejectRuns, RejectActivityInsert, RejectActivityUpdate}

  datatype Phase = Guarded | Verifying | Parked | Finished

  datatype Record = Record(id: string, probe: string, digest: string, proof: Option<string>, attempts: nat,
                           phase: Phase,
                           incident: Option<string>, drain: Option<Marker>)

  /** `state` is absent when the spool is open again. */
  datatype Completion = Completion(state: Option<MarkerState>, recovery: string, proof: string, drain: Option<string>)

  datatype Completed = Completed(record: Record, completion: Completion)

  datatype Spool = Spool(rows: map<string, Row>, marker: Option<Marker>, guards: set<Trigger>, recovery: Option<Record>,
                         last: Option<Completed>)

  predicate Live(row: Row) {
    row.status.Queued? || row.status.Running?
  }

  predicate SomeLive(rows: map<string, Row>) {
    exists id :: id in rows && Live(rows[id])
  }

  predicate SomeRunning(rows: map<string, Row>) {
    exists id :: id in rows && rows[id].status.Running?
  }

  predicate Hexadecimal(s: string) {
    forall i :: 0 <= i < |s| ==> '0' <= s[i] <= '9' || 'a' <= s[i] <= 'f'
  }

  predicate RecoveryId(s: string) {
    |s| == 21 && s[..9] == "recovery-" && Hexadecimal(s[9..])
  }

  predicate DrainId(s: string) {
    |s| == 18 && s[..6] == "drain-" && Hexadecimal(s[6..])
  }

  predicate ReasonValid(s: string) {
    0 < |s| <= MAX_REASON && '\0' !in s
  }

  predicate MarkerValid(marker: Marker) {
    (if marker.state.Recovering? then RecoveryId(marker.id) else DrainId(marker.id)) && ReasonValid(marker.reason)
  }

  predicate Absolute(path: string) {
    |path| > 0 && path[0] == '/'
  }

  predicate DigestValid(digest: string) {
    |digest| == 64 && Hexadecimal(digest)
  }

  predicate RecordValid(record: Record) {
    && RecoveryId(record.id) && Absolute(record.probe) && DigestValid(record.digest)
    && (record.proof.Some? ==> record.proof.value != "")
    && record.attempts <= MAX_ATTEMPTS
    && (record.incident.Some? ==> 0 < |record.incident.value| <= MAX_REASON)
    && (record.drain.Some? ==> !record.drain.value.state.Recovering? && MarkerValid(record.drain.value))
  }

  predicate CompletedValid(last: Completed) {
    && RecordValid(last.record) && last.record.phase.Finished?
    && last.completion.recovery == last.record.id && Some(last.completion.proof) == last.record.proof
    && match last.record.drain
       case None => last.completion.state.None? && last.completion.drain.None?
       case Some(drain) =>
         && last.completion.state.Some? && !last.completion.state.value.Recovering?
         && last.completion.drain == Some(drain.id)
  }

  /** `maintenance_record`: the marker and all three guards, or neither. */
  function CurrentMarker(spool: Spool): Result<Option<Marker>> {
    match spool.marker
    case None => if spool.guards == {} then Ok(None) else Err("broker-maintenance-invalid")
    case Some(marker) =>
      if MarkerValid(marker) && spool.guards == GUARDS then Ok(Some(marker)) else Err("broker-maintenance-invalid")
  }

  /** `record`: the recovery record, and the guard that belongs to it. */
  function CurrentRecord(spool: Spool): Result<Option<Record>> {
    var marker :- CurrentMarker(spool);
    match spool.recovery
    case None => if marker.Some? && marker.value.state.Recovering? then Err("host-recovery-invalid") else Ok(None)
    case Some(record) =>
      if RecordValid(record) && !record.phase.Finished? && marker.Some? && marker.value.state.Recovering?
          && marker.value.id == record.id
      then Ok(Some(record)) else Err("host-recovery-invalid")
  }

  predicate Consistent(spool: Spool) {
    CurrentRecord(spool).Ok? && (spool.last.Some? ==> CompletedValid(spool.last.value))
  }

  /** The proof passed, and the limit it asked for was applied and used. */
  predicate ProofHolds(row: Row) {
    && row.status.Passed? && row.exit == Some(0)
    && row.requested == Some(1) && row.applied == Some(1) && row.peak.Some? && row.peak.value >= 1
  }

  /** A proof that still stands for its attempt. */
  predicate ProofStands(spool: Spool, record: Record) {
    && record.phase.Verifying? && record.proof.Some? && record.proof.value in spool.rows
    && spool.rows[record.proof.value].status in {Queued, Running, Passed}
  }

  // ---------------------------------------------------------------- what each operation does

  function Guard(spool: Spool, id: string, probe: string, digest: string, now: nat): Spool {
    spool.(recovery := Some(Record(id, probe, digest, None, 0, Guarded, None, spool.marker)),
           marker := Some(Marker(Recovering, id, RECOVERY_REASON, now)), guards := GUARDS)
  }

  ghost predicate PrepareStep(before: Spool, after: Spool) {
    && CurrentRecord(before) == Ok(None)
    && (before.marker.Some? && before.marker.value.state.Drained? ==> !SomeLive(before.rows))
    && after.recovery.Some?
    && RecordValid(after.recovery.value)
    && exists now ::
       after == Guard(before, after.recovery.value.id, after.recovery.value.probe, after.recovery.value.digest, now)
  }

  function NewProof(units: nat): Row {
    Row(Queued, None, Some(units), None, None, false, None)
  }

  ghost predicate SubmitStep(before: Spool, after: Spool, id: string) {
    && CurrentRecord(before).Ok? && before.recovery.Some?
    && var record := before.recovery.value;
       && !ProofStands(before, record) && record.attempts < MAX_ATTEMPTS && !SomeRunning(before.rows)
       && id != "" && id !in before.rows
       && after == before.(rows := before.rows[id := NewProof(1)],
                           recovery := Some(record.(proof := Some(id), attempts := record.attempts + 1,
                                                    phase := Verifying, incident := None)))
  }

  ghost predicate ExhaustStep(before: Spool, after: Spool) {
    && CurrentRecord(before).Ok? && before.recovery.Some?
    && var record := before.recovery.value;
       && !ProofStands(before, record) && record.attempts >= MAX_ATTEMPTS
       && after == before.(recovery := Some(record.(phase := Parked, incident := Some("proof-attempts-exhausted"))))
  }

  /** A queued proof is cancelled at once, a running one is asked to stop, and no other row changes. */
  function StopProof(rows: map<string, Row>, proof: Option<string>): map<string, Row> {
    if proof.Some? && proof.value in rows && rows[proof.value].status.Running? then
      rows[proof.value := rows[proof.value].(cancelRequested := true)]
    else if proof.Some? && proof.value in rows && rows[proof.value].status.Queued? then
      rows[proof.value := rows[proof.value].(status := Cancelled, exit := Some(130),
                                             reason := Some("host-recovery-parked"))]
    else
      rows
  }

  ghost predicate ParkStep(before: Spool, after: Spool) {
    && CurrentRecord(before).Ok? && before.recovery.Some?
    && var record := before.recovery.value;
       exists reason :: ReasonValid(reason)
                        && after == before.(rows := StopProof(before.rows, record.proof),
                                            recovery := Some(record.(phase := Parked, incident := Some(reason))))
  }

  /** The drain that `prepare` found comes back with its identity, reason and start; whether it is still
      draining depends on the work that is left. */
  function Restored(spool: Spool, drain: Option<Marker>): Option<Marker> {
    match drain
    case None => None
    case Some(marker) => Some(marker.(state := if SomeLive(spool.rows) then Draining else Drained))
  }

  function Receipt(spool: Spool, record: Record): Completion
    requires record.proof.Some?
  {
    match record.drain
    case None => Completion(None, record.id, record.proof.value, None)
    case Some(marker) => Completion(Some(if SomeLive(spool.rows) then Draining else Drained), record.id,
                                    record.proof.value, Some(marker.id))
  }

  ghost predicate CompleteStep(before: Spool, after: Spool) {
    && CurrentRecord(before).Ok? && before.recovery.Some?
    && var record := before.recovery.value;
       && record.phase.Verifying? && record.proof.Some? && record.proof.value in before.rows
       && ProofHolds(before.rows[record.proof.value]) && !SomeRunning(before.rows)
       && after == before.(marker := Restored(before, record.drain), guards := if record.drain.None? then {}
                           else before.guards,
                           recovery := None, last := Some(Completed(record.(phase := Finished),
                                                                    Receipt(before, record))))
  }

  /** Whether a queued run may be considered for admission. */
  predicate Eligible(spool: Spool, id: string) {
    && CurrentRecord(spool).Ok?
    && (spool.recovery.Some? ==> spool.recovery.value.phase.Verifying? && spool.recovery.value.proof == Some(id))
  }

  /** What stays of a queue: the eligible runs, each as often and in the order it was queued. */
  function Retained(spool: Spool, queued: seq<string>): seq<string> {
    if queued == [] then [] else
      var rest, last := Retained(spool, queued[..|queued| - 1]), queued[|queued| - 1];
      if Eligible(spool, last) then rest + [last] else rest
  }

  lemma {:induction false} AllOrNothing(spool: Spool, queued: seq<string>)
    ensures (forall id :: id in queued ==> Eligible(spool, id)) ==> Retained(spool, queued) == queued
    ensures (forall id :: id in queued ==> !Eligible(spool, id)) ==> Retained(spool, queued) == []
    ensures forall id :: id in Retained(spool, queued) <==> id in queued && Eligible(spool, id)
  {
    if queued != [] {
      AllOrNothing(spool, queued[..|queued| - 1]);
      assert queued == queued[..|queued| - 1] + [queued[|queued| - 1]];
    }
  }

  // ---------------------------------------------------------------- operations

  datatype ProofRequest = ProofRequest(kind: string, runId: string, resources: map<string, nat>, command: seq<string>,
                                       gate: Option<string>, publication: bool)

  class Store {
    var spool: Spool

    constructor (spool: Spool)
      ensures this.spool == spool
    {
      this.spool := spool;
    }

    /** `prepare`. `workersGone` is what the scan of processes and control groups found, and `digest` is
        the digest of the helper file now. */
    method Prepare(probe: string, workersGone: Result<()>, digest: Result<string>, identity: string, now: nat)
      returns (record: Result<Record>)
      requires digest.Ok? ==> Absolute(probe) && DigestValid(digest.value)
      requires RecoveryId(identity)
      modifies this
      ensures record.Err? ==> spool == old(spool)
      ensures record.Ok? ==>
                workersGone.Ok? && spool.recovery == Some(record.value) && digest == Ok(record.value.digest)
                && record.value.probe == probe
      // An active recovery for the same helper is returned as it is; a drained spool must have no live work.
      ensures record.Ok? <==> Preparable(old(spool), probe, workersGone, digest)
      ensures record.Ok? && old(spool).recovery.Some? ==> spool == old(spool)
      ensures record.Ok? && old(spool).recovery.None? ==>
                PrepareStep(old(spool), spool)
                && NewlyGuarded(old(spool), spool, Record(identity, probe, record.value.digest, None, 0, Guarded, None,
                                                          old(spool).marker), now)
    {
      var _ :- CurrentMarker(spool);
      var _ :- workersGone;
      var found :- digest;
      var current :- CurrentRecord(spool);
      if current.Some? {
        if current.value.probe != probe || current.value.digest != found {
          return Err("host-recovery-invalid");
        }
        return Ok(current.value);
      }
      if spool.marker.Some? && spool.marker.value.state.Drained? && SomeLive(spool.rows) {
        return Err("host-recovery-invalid");
      }
      spool := Guard(spool, identity, probe, found, now);
      return Ok(spool.recovery.value);
    }

    /** `filter_queued`: what the broker may still consider admitting. */
    method FilterQueued(queued: seq<string>, digest: Result<string>) returns (eligible: Result<seq<string>>)
      ensures eligible.Ok? ==> CurrentRecord(spool).Ok? && eligible.value == Retained(spool, queued)
      ensures eligible.Ok? && spool.recovery.None? ==> eligible.value == queued
      ensures eligible.Ok? && spool.recovery.Some? && eligible.value != [] ==> digest == Ok(spool.recovery.value.digest)
    {
      AllOrNothing(spool, queued);
      var current :- CurrentRecord(spool);
      if current.None? {
        return Ok(queued);
      }
      if !current.value.phase.Verifying? {
        return Ok([]);
      }
      var found :- digest;
      if found != current.value.digest {
        return Err("host-recovery-invalid");
      }
      var kept := [];
      for i := 0 to |queued|
        invariant kept == Retained(spool, queued[..i])
      {
        assert queued[..i + 1][..i] == queued[..i];
        if current.value.proof == Some(queued[i]) {
          kept := kept + [queued[i]];
        }
      }
      assert queued[..|queued|] == queued;
      return Ok(kept);
    }

    /** `submit_proof`. `accepted` is the ordinary validation of a submission against the live owner. */
    method SubmitProof(recovery: string, request: ProofRequest, accepted: Result<()>, digest: Result<string>)
      returns (run: Result<string>)
      requires accepted.Ok? ==> request.runId != ""
      modifies this
      ensures run.Ok? ==>
                spool.recovery.Some? && spool.recovery.value.id == recovery
                && spool.recovery.value.proof == Some(run.value)
      // A proof that still stands is the answer, and otherwise one is submitted while attempts are left.
      ensures run.Ok? <==>
                Submittable(old(spool), recovery, request, accepted, digest)
                && (ProofStands(old(spool), old(spool).recovery.value)
                    || (old(spool).recovery.value.attempts < 3 && !SomeRunning(old(spool).rows)
                        && request.runId !in old(spool).rows))
      ensures run.Ok? ==>
                if ProofStands(old(spool), old(spool).recovery.value) then spool == old(spool)
                else
                  && SubmitStep(old(spool), spool, request.runId) && run.value == request.runId
                  && spool.rows[request.runId] == Row(Queued, None, Some(1), None, None, false, None)
      // Without one left the recovery is parked.
      ensures Submittable(old(spool), recovery, request, accepted, digest)
              && !ProofStands(old(spool), old(spool).recovery.value) && old(spool).recovery.value.attempts >= 3 ==>
                run == Err("host-recovery-exhausted") && ExhaustStep(old(spool), spool)
      ensures run.Ok? ==> accepted.Ok? && digest == Ok(spool.recovery.value.digest)
                          && request.command == [spool.recovery.value.probe]
                             && request.resources == map["cpu" := 1, "jobs" := 1]
      ensures run.Err? ==>
                spool == old(spool) || (run == Err("host-recovery-exhausted") && ExhaustStep(old(spool), spool))
    {
      var _ :- accepted;
      var current :- CurrentRecord(spool);
      if current.None? || current.value.id != recovery {
        return Err("host-recovery-invalid");
      }
      var record := current.value;
      if request.kind != "check" || request.resources != map["cpu" := 1, "jobs" := 1]
          || request.command != [record.probe]
         || request.gate.Some? || request.publication
      {
        return Err("host-recovery-invalid");
      }
      var found :- digest;
      if found != record.digest {
        return Err("host-recovery-invalid");
      }
      if record.proof.Some? {
        if record.proof.value !in spool.rows {
          return Err("broker-run-unknown");
        }
        if ProofStands(spool, record) {
          return Ok(record.proof.value);
        }
      }
      if record.attempts >= MAX_ATTEMPTS {
        spool := spool.(recovery := Some(record.(phase := Parked, incident := Some("proof-attempts-exhausted"))));
        return Err("host-recovery-exhausted");
      }
      if SomeRunning(spool.rows) {
        return Err("host-recovery-settling");
      }
      if request.runId in spool.rows {
        return Err("broker-database-failed");
      }
      var rows := spool.rows[request.runId := NewProof(request.resources["cpu"])];
      spool := spool.(rows := rows,
                      recovery := Some(record.(proof := Some(request.runId), attempts := record.attempts + 1,
                                               phase := Verifying, incident := None)));
      return Ok(request.runId);
    }

    /** `complete`, and its repetition after the record is gone. */
    method Complete(recovery: string, ownerLive: Result<()>, digest: Result<string>)
      returns (completion: Result<Completion>)
      modifies this
      ensures completion.Err? ==> spool == old(spool)
      ensures completion.Ok? && old(spool).recovery.Some? ==>
                && CompleteStep(old(spool), spool) && old(spool).recovery.value.id == recovery
                && digest == Ok(old(spool).recovery.value.digest) && completion.value == spool.last.value.completion
      // With an active recovery it completes exactly when its proof holds and nothing is running.
      ensures old(spool).recovery.Some? ==> (completion.Ok? <==> Completable(old(spool), recovery, ownerLive, digest))
      ensures completion.Ok? && old(spool).recovery.None? ==> spool == old(spool)
      ensures old(spool).recovery.None? ==> (completion.Ok? <==> Repeatable(old(spool), recovery))
      ensures completion.Ok? ==> completion.value == spool.last.value.completion
      ensures completion.Ok? && old(spool).recovery.Some? ==>
                ReportsRestored(spool, old(spool).recovery.value, completion.value)
    {
      var current :- CurrentRecord(spool);
      if current.None? {
        if spool.last.None? || !CompletedValid(spool.last.value) || spool.last.value.record.id != recovery
           || spool.last.value.completion.proof !in spool.rows
              || !ProofHolds(spool.rows[spool.last.value.completion.proof])
        {
          return Err("host-recovery-invalid");
        }
        return Ok(spool.last.value.completion);
      }
      var _ :- ownerLive;
      var record := current.value;
      if record.id != recovery || record.proof.None? || record.proof.value !in spool.rows {
        return Err("host-recovery-invalid");
      }
      if !record.phase.Verifying? || !ProofHolds(spool.rows[record.proof.value]) || digest != Ok(record.digest)
          || SomeRunning(spool.rows) {
        return Err("host-recovery-proof-failed");
      }
      var receipt := Receipt(spool, record);
      if record.drain.None? {
        spool := spool.(marker := None, guards := {});
      } else {
        var state := if SomeLive(spool.rows) then Draining else Drained;
        spool := spool.(marker := Some(Marker(state, record.drain.value.id, record.drain.value.reason,
                                              record.drain.value.startedAt)));
      }
      spool := spool.(last := Some(Completed(record.(phase := Finished), receipt)), recovery := None);
      return Ok(receipt);
    }

    /** `park`. */
    method Park(recovery: string, reason: string) returns (record: Result<Record>)
      modifies this
      ensures record.Err? ==> spool == old(spool)
      ensures record.Ok? ==>
                ParkStep(old(spool), spool) && spool.recovery == Some(record.value) && record.value.id == recovery
      ensures record.Ok? <==>
                0 < |reason| <= 256 && '\0' !in reason && CurrentRecord(old(spool)).Ok? && old(spool).recovery.Some?
                && old(spool).recovery.value.id == recovery
      ensures record.Ok? ==>
                && record.value == old(spool).recovery.value.(phase := Parked, incident := Some(reason))
                && ProofStopped(old(spool).rows, spool.rows, record.value.proof)
    {
      if !ReasonValid(reason) {
        return Err("host-recovery-invalid");
      }
      var current :- CurrentRecord(spool);
      if current.None? || current.value.id != recovery {
        return Err("host-recovery-invalid");
      }
      var parked := current.value.(phase := Parked, incident := Some(reason));
      spool := spool.(rows := StopProof(spool.rows, current.value.proof), recovery := Some(parked));
      return Ok(parked);
    }
  }

  /** Some run is queued or running. */
  ghost predicate Unfinished(rows: map<string, Row>) {
    exists id :: id in rows && rows[id].status in {Queued, Running}
  }

  ghost predicate Digits(s: string, count: nat) {
    |s| == count && forall c :: c in s ==> c in "0123456789abcdef"
  }

  /** An identity is its prefix and twelve hexadecimal digits, a digest is 64 of them. */
  lemma IdentitiesMean(s: string)
    ensures RecoveryId(s) <==> exists digits :: Digits(digits, 12) && s == "recovery-" + digits
    ensures DrainId(s) <==> exists digits :: Digits(digits, 12) && s == "drain-" + digits
    ensures DigestValid(s) <==> Digits(s, 64)
  {
    DigitsAreHexadecimal(s);
    if |s| >= 9 {
      DigitsAreHexadecimal(s[9..]);
      assert s == s[..9] + s[9..];
    }
    if |s| >= 6 {
      DigitsAreHexadecimal(s[6..]);
      assert s == s[..6] + s[6..];
    }
    forall digits | s == "recovery-" + digits
      ensures s[..9] == "recovery-" && s[9..] == digits
    {
    }
    forall digits | s == "drain-" + digits
      ensures s[..6] == "drain-" && s[6..] == digits
    {
    }
  }

  lemma DigitsAreHexadecimal(s: string)
    ensures Hexadecimal(s) <==> Digits(s, |s|)
  {
    forall i | 0 <= i < |s|
      ensures s[i] in "0123456789abcdef" <==> '0' <= s[i] <= '9' || 'a' <= s[i] <= 'f'
    {
      DigitIsHexadecimal(s[i]);
    }
    if Digits(s, |s|) {
      assert forall i :: 0 <= i < |s| ==> s[i] in s;
    }
  }

  lemma DigitIsHexadecimal(c: char)
    ensures c in "0123456789abcdef" <==> '0' <= c <= '9' || 'a' <= c <= 'f'
  {
    var all := "0123456789abcdef";
    if '0' <= c <= '9' {
      assert c == all[c as int - '0' as int];
    } else if 'a' <= c <= 'f' {
      assert c == all[10 + c as int - 'a' as int];
    }
  }

  /** When `prepare` succeeds: what is stored is consistent, the workers are gone, the helper is readable and, with an
      active recovery, the same, and a drained spool has nothing live. */
  ghost predicate Preparable(spool: Spool, probe: string, workersGone: Result<()>, digest: Result<string>) {
    && CurrentRecord(spool).Ok? && workersGone.Ok? && digest.Ok?
    && match spool.recovery
       case Some(record) => record.probe == probe && record.digest == digest.value
       case None => spool.marker.Some? && spool.marker.value.state.Drained? ==> !Unfinished(spool.rows)
  }

  /** The spool is guarded for this record, with the marker it had kept in the record, and nothing else changed. */
  ghost predicate NewlyGuarded(before: Spool, after: Spool, record: Record, now: nat) {
    && after.recovery == Some(record)
    && after.marker == Some(Marker(Recovering, record.id, "guarded native host recovery", now))
    && after.guards == {RejectRuns, RejectActivityInsert, RejectActivityUpdate}
    && after.rows == before.rows && after.last == before.last
  }

  /** When a proof may be asked for: the submission is acceptable, this recovery is active for an unchanged helper, the
      request is exactly the proof of that helper, and a recorded proof has a row. */
  ghost predicate Submittable(spool: Spool, recovery: string, request: ProofRequest, accepted: Result<()>,
                              digest: Result<string>)
  {
    && accepted.Ok? && CurrentRecord(spool).Ok? && spool.recovery.Some?
    && var record := spool.recovery.value;
       && record.id == recovery && digest == Ok(record.digest)
       && request.kind == "check" && request.resources == map["cpu" := 1, "jobs" := 1]
       && request.command == [record.probe] && request.gate.None? && !request.publication
       && (record.proof.Some? ==> record.proof.value in spool.rows)
  }

  /** The completion names the recovery and its proof, and reports the marker that is back, or none. */
  ghost predicate ReportsRestored(spool: Spool, record: Record, completion: Completion) {
    && completion.recovery == record.id && Some(completion.proof) == record.proof
    && (completion.state.Some? <==> spool.marker.Some?) && (completion.drain.Some? <==> spool.marker.Some?)
    && (spool.marker.Some? ==>
          && completion.state == Some(spool.marker.value.state) && completion.drain == Some(spool.marker.value.id)
          && (spool.marker.value.state.Drained? <==> !Unfinished(spool.rows))
          && (spool.marker.value.state.Draining? <==> Unfinished(spool.rows)))
  }

  /** A running proof is asked to stop, a queued one is cancelled with status 130, and no other row changes. */
  ghost predicate ProofStopped(before: map<string, Row>, after: map<string, Row>, proof: Option<string>) {
    && after.Keys == before.Keys
    && (forall id :: id in before && proof != Some(id) ==> after[id] == before[id])
    && (forall id :: id in before && proof == Some(id) ==>
          && (before[id].status.Running? ==> after[id] == before[id].(cancelRequested := true))
          && (before[id].status.Queued? ==>
                after[id] == before[id].(status := Cancelled, exit := Some(130),
                                         reason := Some("host-recovery-parked")))
          && (!before[id].status.Running? && !before[id].status.Queued? ==> after[id] == before[id]))
  }

  /** A stored recovery is consistent when there is a marker with all three guards or neither, the marker is a
      recovery's exactly when there is a record, and then it names that record, which is valid and not finished. */
  lemma RecordMeans(spool: Spool)
    ensures CurrentRecord(spool).Ok? <==>
              && (if spool.marker.None? then spool.guards == {}
                  else (if spool.marker.value.state.Recovering? then RecoveryId(spool.marker.value.id)
                        else DrainId(spool.marker.value.id))
                       && 0 < |spool.marker.value.reason| <= 256 && '\0' !in spool.marker.value.reason
                       && spool.guards == {RejectRuns, RejectActivityInsert, RejectActivityUpdate})
              && (spool.recovery.Some? <==> spool.marker.Some? && spool.marker.value.state.Recovering?)
              && (spool.recovery.Some? ==>
                    && spool.marker.value.id == spool.recovery.value.id && !spool.recovery.value.phase.Finished?
                    && RecordValid(spool.recovery.value))
    ensures CurrentRecord(spool).Ok? ==> CurrentRecord(spool).value == spool.recovery
  {
  }

  /** A proof holds when it passed with status 0, and the one unit it asked for was applied and used. A recorded proof
      stands while it is queued, running or passed. */
  lemma ProofMeans(spool: Spool, record: Record, row: Row)
    ensures ProofHolds(row) <==>
              row == Row(Passed, Some(0), Some(1), Some(1), row.peak, row.cancelRequested, row.reason)
              && row.peak.Some? && row.peak.value > 0
    ensures ProofStands(spool, record) <==>
              && record.phase.Verifying? && record.proof.Some? && record.proof.value in spool.rows
              && var status := spool.rows[record.proof.value].status;
                 !status.Failed? && !status.Cancelled? && !status.Interrupted?
  {
  }

  /** When an active recovery completes: it is this one and verifying, its proof is there and holds, the owner is
      live, the helper is unchanged, and no run is running. */
  ghost predicate Completable(spool: Spool, recovery: string, ownerLive: Result<()>, digest: Result<string>) {
    && CurrentRecord(spool).Ok? && spool.recovery.Some? && ownerLive.Ok?
    && var record := spool.recovery.value;
       && record.id == recovery && record.phase.Verifying?
       && record.proof.Some? && record.proof.value in spool.rows && ProofHolds(spool.rows[record.proof.value])
       && digest == Ok(record.digest) && !SomeRunning(spool.rows)
  }

  /** When the same completion can be reported again. */
  predicate Repeatable(spool: Spool, recovery: string) {
    && CurrentRecord(spool) == Ok(None)
    && spool.last.Some? && CompletedValid(spool.last.value) && spool.last.value.record.id == recovery
    && spool.last.value.completion.proof in spool.rows && ProofHolds(spool.rows[spool.last.value.completion.proof])
  }
}
