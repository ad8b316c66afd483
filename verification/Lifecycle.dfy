/** The resource lifecycle of one run: prepare, set up, attach, measure, cancel, finish and clean up, with
    every save made durable before the next step. */
module Lifecycle {

  import opened Outcomes
  import opened Resources
  import opened Receipts
  import opened Runs
  import opened ReceiptLog

  /** The scratch space a worker gets: a tmpfs of this size, or a quota directory. */
  datatype TmpfsSpace = TmpfsSpace(size: nat, inodes: nat)

  datatype WorkerSetup = WorkerSetup(tmpfs: Option<TmpfsSpace>, quota: bool)

  // ---------------------------------------------------------------- what rows promise

  type Contract = map<string, Binding>

  type States = map<string, BackendState>

  predicate IsRequired(contract: Contract, name: string) {
    name in contract && contract[name].IsRequired()
  }

  /** The setup of scratch space, not attachment, applies these. */
  predicate Scratchy(contract: Contract, name: string) {
    name in contract && (contract[name].kind.Tmpfs? || contract[name].kind.Inodes?)
  }

  /** Every required resource is in the record of its backend. */
  ghost predicate Held(contract: Contract, state: States) {
    forall name :: IsRequired(contract, name) ==> InRecord(contract, state, name)
  }

  predicate InRecord(contract: Contract, state: States, name: string)
    requires name in contract
  {
    var backend := contract[name].backend;
    backend.Some? && backend.value in state && name in state[backend.value].resources
  }

  /** Required scratch of the control-group backend, which needs a tmpfs. */
  predicate NeedsTmpfs(contract: Contract, name: string) {
    IsRequired(contract, name) && contract[name].backend == Some(CGROUP_BACKEND) && Scratchy(contract, name)
  }

  predicate NeedsQuota(contract: Contract, name: string) {
    IsRequired(contract, name) && contract[name].backend == Some(QUOTA_BACKEND)
  }

  /** Every required resource that scratch setup provides has its scratch space. */
  ghost predicate Covered(contract: Contract, setup: WorkerSetup) {
    forall name :: (NeedsTmpfs(contract, name) ==> setup.tmpfs.Some?) && (NeedsQuota(contract, name) ==> setup.quota)
  }

  ghost predicate TmpfsGiven(contract: Contract, tmpfs: Option<TmpfsSpace>) {
    forall name :: NeedsTmpfs(contract, name) ==> tmpfs.Some?
  }

  ghost predicate NoQuotaNeeded(contract: Contract) {
    forall name :: !NeedsQuota(contract, name)
  }

  predicate NeedsAttachment(contract: Contract, name: string) {
    IsRequired(contract, name) && contract[name].backend == Some(CGROUP_BACKEND) && !Scratchy(contract, name)
  }

  /** Every required resource that attachment applies is applied. */
  ghost predicate Attached(contract: Contract, applied: map<string, nat>) {
    forall name :: NeedsAttachment(contract, name) ==> name in applied
  }

  /** What `release` promises: every required resource is applied. */
  ghost predicate RequiredApplied(contract: Contract, applied: map<string, nat>) {
    forall name :: IsRequired(contract, name) ==> name in applied
  }

  ghost predicate Fresh(state: States) {
    forall backend :: backend in state ==> !state[backend].cancelled && !state[backend].finished
  }

  /** Only clients acted: what the broker owns is as it was. */
  ghost predicate Undisturbed(before: Row, after: Row) {
    && after == before.(cancelRequested := after.cancelRequested, phase := after.phase, reported := after.reported)
    && (before.cancelRequested ==> after.cancelRequested)
  }

  ghost predicate SameRequest(before: Row, after: Row) {
    && after.kind == before.kind && after.names == before.names && after.resources == before.resources
    && after.contract == before.contract && after.worker == before.worker && after.failure == before.failure
    && after.status == before.status && (before.cancelRequested ==> after.cancelRequested)
  }

  ghost predicate SameRun(before: Row, after: Row) {
    after.kind == before.kind && after.names == before.names && after.resources == before.resources
        && after.contract == before.contract
  }

  ghost function Last(history: seq<Row>): Row
    requires history != []
  {
    history[|history| - 1]
  }

  ghost predicate Active(history: seq<Row>) {
    HistoryOk(history) && Last(history).status.Running?
  }

  lemma LastIsOk(history: seq<Row>)
    requires Active(history)
    ensures RowOk(Last(history))
  {
    RowAlwaysOk(history, |history| - 1);
  }

  // ---------------------------------------------------------------- backends

  /** `prepare` of a backend. It refuses an incomplete policy, and any other backend is unavailable. */
  method BackendPrepare(backend: string, contract: map<string, Binding>, names: seq<string>)
    returns (handle: Result<Json>)
    ensures handle.Ok? ==> backend in {CGROUP_BACKEND, QUOTA_BACKEND} && PolicyComplete(backend, contract, names)
  {
    var code: string, made: Json := *, *;
    if * {
      return Err(code);
    }
    if backend != CGROUP_BACKEND && backend != QUOTA_BACKEND {
      return Err("backend-unavailable");
    }
    if !PolicyComplete(backend, contract, names) {
      return Err("request-unsupported");
    }
    return Ok(made);
  }

  /** `attach` or `usage` of a backend: it may report any error. */
  method BackendAttach() returns (done: Result<()>)
  {
    var code: string := *;
    if * {
      return Err(code);
    }
    return Ok(());
  }

  method BackendMeasure() returns (measured: Result<Measurement>)
  {
    var code: string, measurement: Measurement := *, *;
    if * {
      return Err(code);
    }
    return Ok(measurement);
  }

  /** `finish` of a backend, whose error is a valid code, and whose measurement fits the run when it is reliable. */
  method BackendFinish(resources: map<string, nat>, reliable: bool) returns (measured: Result<Measurement>)
    ensures measured.Err? ==> CodeValid(measured.code)
    ensures measured.Ok? && reliable ==> MeasurementValid(measured.value, resources)
  {
    var done := BackendCommand();
    var measurement: Measurement := *;
    if reliable && !MeasurementValid(measurement, resources) {
      measurement := Measurement(map[], []);
    }
    return if done.Ok? then Ok(measurement) else Err(done.code);
  }

  /** `cancel`, `cleanup` or the scratch setup of a backend, whose error is a valid code. */
  method BackendCommand() returns (done: Result<()>)
    ensures done.Err? ==> CodeValid(done.code)
  {
    var code: string := *;
    if * {
      if CodeValid(code) {
        return Err(code);
      }
    }
    return Ok(());
  }

  // ---------------------------------------------------------------- prepare

  /** What cannot be enforced of this resource, if that is to be enforced at all. */
  ghost predicate HasIssue(row: Row, name: string, capabilities: map<string, Capability>) {
    name in row.contract && row.contract[name].Enforced() && CapabilityIssueOf(row, name, capabilities).Some?
  }

  /** One event, with the issue as its code, for each of the first requested resources that has an issue. */
  ghost function ProbeEvents(row: Row, capabilities: map<string, Capability>, upTo: nat): seq<Event>
    requires upTo <= |row.names|
  {
    if upTo == 0 then [] else
      var name := row.names[upTo - 1];
      ProbeEvents(row, capabilities, upTo - 1)
      + if HasIssue(row, name, capabilities) then [IssueEvent(row, name, capabilities)] else []
  }

  ghost function IssueEvent(row: Row, name: string, capabilities: map<string, Capability>): Event
    requires HasIssue(row, name, capabilities)
  {
    Event(row.contract[name].backend.value, name, Stage.Probe,
          if row.contract[name].IsRequired() then Failed
              else Unapplied, CapabilityIssueOf(row, name, capabilities).value)
  }

  /** Of the first requested resources exactly those are eligible that are to be enforced and have no issue. */
  ghost predicate EligibleUpTo(row: Row, eligible: map<string, seq<string>>, capabilities: map<string, Capability>,
                               upTo: nat)
    requires upTo <= |row.names|
  {
    && EligibleOk(row, eligible)
    && forall name :: name in row.contract ==>
         (IsEligible(row, eligible, name) <==> name in row.names[..upTo] && MayBeHeld(row, name, capabilities))
  }

  ghost predicate MayBeHeld(row: Row, name: string, capabilities: map<string, Capability>) {
    name in row.contract && row.contract[name].Enforced() && !HasIssue(row, name, capabilities)
  }

  /** One of the first requested resources is required and cannot be enforced. */
  ghost predicate RequiredIssue(row: Row, capabilities: map<string, Capability>, upTo: nat)
    requires upTo <= |row.names|
  {
    exists k :: 0 <= k < upTo && HasIssue(row, row.names[k], capabilities) && IsRequired(row.contract, row.names[k])
  }

  /** This resource, and no other one, became eligible if it was not. */
  ghost predicate Admitted(row: Row, before: map<string, seq<string>>, after: map<string, seq<string>>, name: string) {
    forall other :: other in row.contract ==>
      (IsEligible(row, after, other) <==> IsEligible(row, before, other) || other == name)
  }

  lemma EligibleGrows(row: Row, before: map<string, seq<string>>, after: map<string, seq<string>>,
                      capabilities: map<string, Capability>, i: nat)
    requires i < |row.names| && EligibleUpTo(row, before, capabilities, i) && EligibleOk(row, after)
    requires Admitted(row, before, after, row.names[i]) && MayBeHeld(row, row.names[i], capabilities)
    ensures EligibleUpTo(row, after, capabilities, i + 1)
  {
    assert row.names[..i + 1] == row.names[..i] + [row.names[i]];
  }

  lemma EligibleSkips(row: Row, eligible: map<string, seq<string>>, capabilities: map<string, Capability>, i: nat)
    requires i < |row.names| && EligibleUpTo(row, eligible, capabilities, i)
    ensures !MayBeHeld(row, row.names[i], capabilities) ==> EligibleUpTo(row, eligible, capabilities, i + 1)
  {
    assert row.names[..i + 1] == row.names[..i] + [row.names[i]];
  }

  lemma RequiredAreEligible(row: Row, eligible: map<string, seq<string>>, capabilities: map<string, Capability>)
    requires RowOk(row) && EligibleUpTo(row, eligible, capabilities, |row.names|)
    requires !RequiredIssue(row, capabilities, |row.names|)
    ensures forall name :: IsRequired(row.contract, name) ==> IsEligible(row, eligible, name)
  {
    assert row.names[..|row.names|] == row.names;
    forall name | IsRequired(row.contract, name)
      ensures IsEligible(row, eligible, name)
    {
      var k :| 0 <= k < |row.names| && row.names[k] == name;
      assert MayBeHeld(row, name, capabilities);
    }
  }

  lemma RequiredIssueGrows(row: Row, capabilities: map<string, Capability>, i: nat)
    requires i < |row.names|
    ensures RequiredIssue(row, capabilities, i + 1) <==>
              RequiredIssue(row, capabilities, i)
              || (HasIssue(row, row.names[i], capabilities) && IsRequired(row.contract, row.names[i]))
  {
  }

  /** The probe of `prepare_resources`: what each backend may prepare, and what cannot be enforced. */
  method ProbeBindings(row: Row, capabilities: map<string, Capability>)
    returns (receipt: Receipt, eligible: map<string, seq<string>>, requiredFailure: bool)
    requires RowOk(row)
    ensures Grown(row.receipt, receipt, row.resources)
    ensures receipt == row.receipt.(events := row.receipt.events + ProbeEvents(row, capabilities, |row.names|))
    ensures EligibleUpTo(row, eligible, capabilities, |row.names|)
    ensures requiredFailure <==> RequiredIssue(row, capabilities, |row.names|)
    ensures requiredFailure ==> Explained(row.contract, receipt.events)
  {
    receipt, eligible, requiredFailure := row.receipt, map[], false;
    for i := 0 to |row.names|
      invariant Grown(row.receipt, receipt, row.resources)
      invariant receipt == row.receipt.(events := row.receipt.events + ProbeEvents(row, capabilities, i))
      invariant EligibleUpTo(row, eligible, capabilities, i)
      invariant requiredFailure <==> RequiredIssue(row, capabilities, i)
      invariant requiredFailure ==> Explained(row.contract, receipt.events)
    {
      receipt, eligible, requiredFailure := ProbeOne(row, receipt, eligible, capabilities, requiredFailure, i);
    }
  }

  /** The probe of one resource. */
  method ProbeOne(row: Row, receipt: Receipt, eligible: map<string, seq<string>>, capabilities: map<string, Capability>,
                  failed: bool, i: nat)
    returns (longer: Receipt, more: map<string, seq<string>>, requiredFailure: bool)
    requires RowOk(row) && i < |row.names| && Grown(row.receipt, receipt, row.resources)
    requires receipt == row.receipt.(events := row.receipt.events + ProbeEvents(row, capabilities, i))
    requires EligibleUpTo(row, eligible, capabilities, i)
    requires failed <==> RequiredIssue(row, capabilities, i)
    requires failed ==> Explained(row.contract, receipt.events)
    ensures Grown(row.receipt, longer, row.resources)
    ensures longer == row.receipt.(events := row.receipt.events + ProbeEvents(row, capabilities, i + 1))
    ensures EligibleUpTo(row, more, capabilities, i + 1)
    ensures requiredFailure <==> RequiredIssue(row, capabilities, i + 1)
    ensures requiredFailure ==> Explained(row.contract, longer.events)
  {
    longer, more, requiredFailure := receipt, eligible, failed;
    var name := row.names[i];
    RequiredIssueGrows(row, capabilities, i);
    EligibleSkips(row, eligible, capabilities, i);
    if row.contract[name].Enforced() {
      var issue := CapabilityIssueOf(row, name, capabilities);
      if issue.None? {
        more := Admit(row, eligible, name);
        EligibleGrows(row, eligible, more, capabilities, i);
      } else {
        longer := RecordIssue(row, receipt, name, capabilities, failed);
        requiredFailure := failed || row.contract[name].IsRequired();
      }
    }
  }

  method RecordIssue(row: Row, receipt: Receipt, name: string, capabilities: map<string, Capability>,
                     ghost failed: bool)
    returns (longer: Receipt)
    requires RowOk(row) && Grown(row.receipt, receipt, row.resources)
    requires HasIssue(row, name, capabilities)
    requires failed ==> Explained(row.contract, receipt.events)
    ensures Grown(row.receipt, longer, row.resources)
    ensures longer == receipt.(events := receipt.events + [IssueEvent(row, name, capabilities)])
    ensures failed || IsRequired(row.contract, name) ==> Explained(row.contract, longer.events)
  {
    var binding := row.contract[name];
    var backend := binding.backend.value;
    CapabilityIssueIsCode(binding, if backend in capabilities then Some(capabilities[backend]) else None);
    longer := Record(receipt, backend, [name], Stage.Probe, FailureStatus(row.contract),
                     CapabilityIssueOf(row, name, capabilities).value,
                     row.resources);
    GrownIsTransitive(row.receipt, receipt, longer, row.resources);
    IssueIsLogged(row, receipt, longer, name, capabilities);
    if failed {
      ExplainedStays(row.contract, receipt.events, longer.events);
    }
  }

  lemma IssueIsLogged(row: Row, receipt: Receipt, longer: Receipt, name: string, capabilities: map<string, Capability>)
    requires HasIssue(row, name, capabilities)
    requires longer.events == receipt.events + Logged(row.contract[name].backend.value, [name], Stage.Probe,
                                                      FailureStatus(row.contract),
                                                      CapabilityIssueOf(row, name, capabilities).value)
    ensures longer.events == receipt.events + [IssueEvent(row, name, capabilities)]
    ensures IsRequired(row.contract, name) ==> Explained(row.contract, longer.events)
  {
    if IsRequired(row.contract, name) {
      assert FailureOf(row.contract, longer.events[|receipt.events|]);
    }
  }

  method Admit(row: Row, eligible: map<string, seq<string>>, name: string) returns (more: map<string, seq<string>>)
    requires RowOk(row) && EligibleOk(row, eligible) && name in row.contract && row.contract[name].Enforced()
    ensures EligibleOk(row, more) && Admitted(row, eligible, more, name)
  {
    var backend := row.contract[name].backend.value;
    var chosen := if backend in eligible then eligible[backend] else [];
    assert EnforcedBy(row.contract, backend, chosen);
    more := eligible[backend := chosen + [name]];
  }

  function CapabilityIssueOf(row: Row, name: string, capabilities: map<string, Capability>): Option<string> {
    if name in row.contract && row.contract[name].backend.Some? then
      var backend := row.contract[name].backend.value;
      CapabilityIssue(row.contract[name], if backend in capabilities then Some(capabilities[backend]) else None)
    else None
  }

  predicate IsEligible(row: Row, eligible: map<string, seq<string>>, name: string)
    requires name in row.contract
  {
    var backend := row.contract[name].backend;
    backend.Some? && backend.value in eligible && name in eligible[backend.value]
  }

  ghost predicate EligibleOk(row: Row, eligible: map<string, seq<string>>) {
    forall backend :: backend in eligible ==> NameValid(backend) && EnforcedBy(row.contract, backend, eligible[backend])
  }

  /** These events record what a backend answered about the resources it was asked to prepare. */
  ghost predicate PrepareAnswered(events: seq<Event>, from: nat, contract: Contract, backend: string,
                                  names: seq<string>, held: bool)
  {
    exists p: nat, code ::
      && from <= p && p + |names| <= |events|
      && AnsweredAt(events, p, contract, backend, names, held, code)
  }

  ghost predicate AnsweredAt(events: seq<Event>, p: nat, contract: Contract, backend: string, names: seq<string>,
                             held: bool, code: string)
    requires p + |names| <= |events|
  {
    && CodeValid(code) && (held ==> code == "prepared")
    && forall i :: 0 <= i < |names| ==>
         events[p + i] == Event(backend, names[i], Prepare,
                                if held then Recorded else if IsRequired(contract, names[i]) then Failed else Unapplied,
                                code)
  }

  lemma AnswerStays(before: seq<Event>, after: seq<Event>, from: nat, contract: Contract, backend: string,
                    names: seq<string>, held: bool)
    requires before <= after && PrepareAnswered(before, from, contract, backend, names, held)
    ensures PrepareAnswered(after, from, contract, backend, names, held)
  {
    var p: nat, code :| from <= p && p + |names| <= |before|
        && AnsweredAt(before, p, contract, backend, names, held, code);
    assert AnsweredAt(after, p, contract, backend, names, held, code);
  }

  /** Every backend that has been asked answered on record, and is held exactly when it could prepare. */
  ghost predicate AllAnswered(events: seq<Event>, from: nat, contract: Contract, eligible: map<string, seq<string>>,
                              asked: set<string>, state: States)
  {
    forall backend :: backend in asked && backend in eligible ==>
      PrepareAnswered(events, from, contract, backend, eligible[backend], backend in state)
  }

  lemma AnswersStay(before: seq<Event>, after: seq<Event>, from: nat, contract: Contract,
                    eligible: map<string, seq<string>>, asked: set<string>, state: States, backend: string,
                        more: States)
    requires before <= after && AllAnswered(before, from, contract, eligible, asked, state)
    requires backend in eligible && backend !in asked
    requires PrepareAnswered(after, from, contract, backend, eligible[backend], backend in more)
    requires forall other :: other != backend ==> (other in more <==> other in state)
    ensures AllAnswered(after, from, contract, eligible, asked + {backend}, more)
  {
    forall other | other in asked && other in eligible
      ensures PrepareAnswered(after, from, contract, other, eligible[other], other in more)
    {
      AnswerStays(before, after, from, contract, other, eligible[other], other in state);
    }
  }

  /** Exactly this answer was added. */
  ghost predicate AnsweredAnew(before: Receipt, after: Receipt, contract: Contract, backend: string,
                               names: seq<string>, held: bool)
  {
    && before.events <= after.events && |after.events| == |before.events| + |names|
    && after == before.(events := after.events)
    && exists code :: AnsweredAt(after.events, |before.events|, contract, backend, names, held, code)
  }

  lemma AnswerLogged(before: Receipt, after: Receipt, contract: Contract, backend: string, names: seq<string>,
                     held: bool, code: string)
    requires CodeValid(code) && (held ==> code == "prepared")
    requires after == before.(events := before.events + Logged(backend, names, Prepare,
                                                               if held then Always(Recorded)
                                                               else FailureStatus(contract), code))
    ensures AnsweredAnew(before, after, contract, backend, names, held)
    ensures !held && AnyRequired(contract, names) ==> Explained(contract, after.events)
  {
    assert AnsweredAt(after.events, |before.events|, contract, backend, names, held, code);
    if !held && AnyRequired(contract, names) {
      FailureExplains(contract, before.events, backend, names, Prepare, code);
    }
  }

  /** Ask one backend to prepare its resources, and record the answer. */
  method PrepareOne(row: Row, receipt: Receipt, backend: string, names: seq<string>)
    returns (longer: Receipt, record: Option<BackendState>)
    requires RowOk(row) && ReceiptValid(receipt, row.resources) && EnforcedBy(row.contract, backend, names)
              && NameValid(backend)
    ensures Grown(receipt, longer, row.resources) && longer.applied == receipt.applied
    ensures record.Some? ==>
              && record.value.resources == names && !record.value.finished && !record.value.cancelled
              && backend in {CGROUP_BACKEND, QUOTA_BACKEND} && PolicyComplete(backend, row.contract, names)
    ensures AnsweredAnew(receipt, longer, row.contract, backend, names, record.Some?)
    ensures record.None? && AnyRequired(row.contract, names) ==> Explained(row.contract, longer.events)
  {
    KnownCodes();
    StockCodes();
    var handle := BackendPrepare(backend, row.contract, names);
    if handle.Ok? {
      longer := Record(receipt, backend, names, Prepare, Always(Recorded), "prepared", row.resources);
      AnswerLogged(receipt, longer, row.contract, backend, names, true, "prepared");
      record := Some(BackendState(handle.value, names, false, false));
    } else {
      var code := SafeCode(handle.code, "prepare-failed");
      longer := Record(receipt, backend, names, Prepare, FailureStatus(row.contract), code, row.resources);
      AnswerLogged(receipt, longer, row.contract, backend, names, false, code);
      record := None;
    }
  }

  ghost predicate Prepared(row: Row, eligible: map<string, seq<string>>, state: map<string, BackendState>) {
    && StateOk(row.contract, state)
    && forall backend :: backend in state ==>
         backend in eligible && state[backend].resources == eligible[backend] && !state[backend].cancelled
             && !state[backend].finished
  }

  /** Ask every backend that has eligible resources. */
  method PrepareAll(row: Row, before: Receipt, eligible: map<string, seq<string>>)
    returns (receipt: Receipt, state: map<string, BackendState>, requiredFailure: bool)
    requires RowOk(row) && ReceiptValid(before, row.resources) && EligibleOk(row, eligible)
    ensures AskedSoFar(row, before, receipt, eligible, eligible.Keys, state, requiredFailure)
  {
    receipt, state, requiredFailure := before, map[], false;
    NothingAsked(row, before, eligible);
    var left := eligible.Keys;
    while left != {}
      invariant left <= eligible.Keys
      invariant AskedSoFar(row, before, receipt, eligible, eligible.Keys - left, state, requiredFailure)
      decreases left
    {
      var backend :| backend in left;
      assert eligible.Keys - (left - {backend}) == eligible.Keys - left + {backend};
      receipt, state, requiredFailure :=
        PrepareNext(row, before, receipt, eligible, eligible.Keys - left, state, requiredFailure, backend);
      left := left - {backend};
    }
    assert eligible.Keys - left == eligible.Keys;
  }

  lemma NothingAsked(row: Row, before: Receipt, eligible: map<string, seq<string>>)
    requires RowOk(row) && ReceiptValid(before, row.resources)
    ensures AskedSoFar(row, before, before, eligible, eligible.Keys - eligible.Keys, map[], false)
  {
  }

  /** What holds once the backends `asked` have answered: their answers are the new events, those that could prepare
      hold their eligible names, and the failure is that one of the others was asked for something required. */
  ghost predicate AskedSoFar(row: Row, before: Receipt, receipt: Receipt, eligible: map<string, seq<string>>,
                             asked: set<string>, state: map<string, BackendState>, requiredFailure: bool)
  {
    && Grown(before, receipt, row.resources) && receipt == before.(events := receipt.events)
    && Prepared(row, eligible, state) && state.Keys <= asked
    && AllAnswered(receipt.events, |before.events|, row.contract, eligible, asked, state)
    && (requiredFailure <==> RequiredRefused(row.contract, eligible, asked, state))
    && (requiredFailure ==> Explained(row.contract, receipt.events))
  }

  /** Ask one more backend. */
  method PrepareNext(row: Row, before: Receipt, receipt: Receipt, eligible: map<string, seq<string>>,
                     ghost asked: set<string>, state: map<string, BackendState>, failed: bool, backend: string)
    returns (longer: Receipt, more: map<string, BackendState>, requiredFailure: bool)
    requires RowOk(row) && ReceiptValid(before, row.resources) && EligibleOk(row, eligible)
    requires backend in eligible && backend !in asked
    requires AskedSoFar(row, before, receipt, eligible, asked, state, failed)
    ensures AskedSoFar(row, before, longer, eligible, asked + {backend}, more, requiredFailure)
  {
    more, requiredFailure := state, failed;
    var record: Option<BackendState>;
    longer, record := PrepareOne(row, receipt, backend, eligible[backend]);
    GrownIsTransitive(before, receipt, longer, row.resources);
    if failed {
      ExplainedStays(row.contract, receipt.events, longer.events);
    }
    if record.Some? {
      PreparedGrows(row, eligible, state, backend, record.value);
      more := state[backend := record.value];
    } else {
      requiredFailure := failed || AnyRequired(row.contract, eligible[backend]);
    }
    AnswerIsNew(receipt, longer, before, row.contract, backend, eligible[backend], record.Some?);
    AnswersStay(receipt.events, longer.events, |before.events|, row.contract, eligible, asked, state, backend, more);
    RefusalsGrow(row.contract, eligible, asked, state, backend, more);
  }

  lemma AnswerIsNew(earlier: Receipt, later: Receipt, before: Receipt, contract: Contract, backend: string,
                    names: seq<string>, held: bool)
    requires before.events <= earlier.events && AnsweredAnew(earlier, later, contract, backend, names, held)
    ensures PrepareAnswered(later.events, |before.events|, contract, backend, names, held)
  {
  }

  /** A backend that was asked to prepare something required could not. */
  ghost predicate RequiredRefused(contract: Contract, eligible: map<string, seq<string>>, asked: set<string>,
                                  state: States)
  {
    exists backend ::
      backend in asked && backend in eligible && backend !in state && AnyRequired(contract, eligible[backend])
  }

  lemma RefusalsGrow(contract: Contract, eligible: map<string, seq<string>>, asked: set<string>, state: States,
                     backend: string, more: States)
    requires backend in eligible && backend !in asked && backend !in state
    requires forall other :: other != backend ==> (other in more <==> other in state)
    ensures RequiredRefused(contract, eligible, asked + {backend}, more) <==>
              RequiredRefused(contract, eligible, asked, state)
              || (backend !in more && AnyRequired(contract, eligible[backend]))
  {
  }

  lemma PreparedGrows(row: Row, eligible: map<string, seq<string>>, state: map<string, BackendState>, backend: string,
                      record: BackendState)
    requires Prepared(row, eligible, state) && EligibleOk(row, eligible) && backend in eligible
              && record.resources == eligible[backend]
    requires !record.cancelled && !record.finished && backend in {CGROUP_BACKEND, QUOTA_BACKEND}
    requires PolicyComplete(backend, row.contract, record.resources)
    ensures Prepared(row, eligible, state[backend := record])
  {
    assert EnforcedBy(row.contract, backend, record.resources);
    assert StateOk(row.contract, state);
    assert StateOk(row.contract, state[backend := record]);
  }

  lemma PreparedHolds(row: Row, eligible: map<string, seq<string>>, state: map<string, BackendState>)
    requires Prepared(row, eligible, state)
    requires forall name :: IsRequired(row.contract, name) ==> IsEligible(row, eligible, name)
    requires !RequiredRefused(row.contract, eligible, eligible.Keys, state)
    ensures Held(row.contract, state) && Fresh(state)
  {
    forall name | IsRequired(row.contract, name)
      ensures InRecord(row.contract, state, name)
    {
      var backend := row.contract[name].backend.value;
      assert IsEligible(row, eligible, name) && name in eligible[backend];
      assert AnyRequired(row.contract, eligible[backend]);
    }
  }

  /** The probe is on record, and then, unless something required cannot be enforced, what every backend answered. */
  ghost predicate Asked(run: Row, capabilities: map<string, Capability>, eligible: map<string, seq<string>>,
                        held: States, answered: Receipt)
  {
    var probed := run.receipt.events + ProbeEvents(run, capabilities, |run.names|);
    && answered == run.receipt.(events := answered.events)
    && if RequiredIssue(run, capabilities, |run.names|) then answered.events == probed && held == map[]
       else
         && probed <= answered.events && held.Keys <= eligible.Keys
         && AllAnswered(answered.events, |probed|, run.contract, eligible, eligible.Keys, held)
  }

  /** Probe the resources, and have the backends prepare what they can unless something required cannot be enforced. */
  method AskBackends(run: Row, capabilities: map<string, Capability>)
    returns (receipt: Receipt, eligible: map<string, seq<string>>, state: States, requiredFailure: bool)
    requires RowOk(run) && run.state == map[]
    ensures Grown(run.receipt, receipt, run.resources) && StateOk(run.contract, state)
    ensures EligibleUpTo(run, eligible, capabilities, |run.names|) && Asked(run, capabilities, eligible, state, receipt)
    ensures requiredFailure <==>
              RequiredIssue(run, capabilities, |run.names|)
              || RequiredRefused(run.contract, eligible, eligible.Keys, state)
    ensures if requiredFailure then Explained(run.contract, receipt.events)
            else Held(run.contract, state) && Fresh(state)
  {
    receipt, eligible, requiredFailure := ProbeBindings(run, capabilities);
    state := map[];
    if !requiredFailure {
      ghost var probed := receipt;
      receipt, state, requiredFailure := PrepareAll(run, receipt, eligible);
      GrownIsTransitive(run.receipt, probed, receipt, run.resources);
      if !requiredFailure {
        RequiredAreEligible(run, eligible, capabilities);
        PreparedHolds(run, eligible, state);
      }
    }
  }

  // ---------------------------------------------------------------- cleanup

  lemma RecordedNames(row: Row, backend: string)
    requires RowOk(row) && backend in row.state
    ensures NameValid(backend) && forall name :: name in row.state[backend].resources ==> name in row.resources
  {
    KnownCodes();
  }

  /** One cleanup event for each name that this backend held, and nothing else. */
  ghost predicate CleanedUp(before: Receipt, after: Receipt, backend: string, held: map<string, BackendState>) {
    if backend in held then LoggedOnce(before, after, backend, held[backend].resources, Cleanup, "cleaned")
        else after == before
  }

  /** Exactly one cleanup event for each name that each backend held, and nothing else. */
  ghost predicate AllCleanedUp(before: Receipt, after: Receipt, held: map<string, BackendState>) {
    exists middle :: CleanedUp(before, middle, CGROUP_BACKEND, held) && CleanedUp(middle, after, QUOTA_BACKEND, held)
  }

  /** `cleanup_resource_records`: every record is given up, whether or not its backend could clean up. */
  method CleanUp(row: Row, before: Receipt, held: map<string, BackendState>)
    returns (receipt: Receipt, state: map<string, BackendState>)
    requires RowOk(row) && ReceiptValid(before, row.resources) && StateOk(row.contract, held)
    ensures Grown(before, receipt, row.resources) && receipt.applied == before.applied
    ensures AllCleanedUp(before, receipt, held)
    ensures state == map[]
  {
    BackendsDiffer();
    receipt, state := CleanUpHeld(row, before, CGROUP_BACKEND, held, held, before);
    ghost var middle := receipt;
    receipt, state := CleanUpHeld(row, receipt, QUOTA_BACKEND, held, state, before);
    BothCleanedUp(before, middle, receipt, held);
    NothingLeft(row.contract, held);
  }

  lemma BothCleanedUp(before: Receipt, middle: Receipt, after: Receipt, held: map<string, BackendState>)
    requires CleanedUp(before, middle, CGROUP_BACKEND, held) && CleanedUp(middle, after, QUOTA_BACKEND, held)
    ensures AllCleanedUp(before, after, held) && after.applied == before.applied
  {
  }

  /** Only the two backends hold anything. */
  lemma NothingLeft(contract: Contract, held: map<string, BackendState>)
    requires StateOk(contract, held)
    ensures held - {CGROUP_BACKEND} - {QUOTA_BACKEND} == map[]
  {
    assert (held - {CGROUP_BACKEND} - {QUOTA_BACKEND}).Keys == {};
  }

  method CleanUpHeld(row: Row, receipt: Receipt, backend: string, held: map<string, BackendState>, state: map<string,
                     BackendState>,
                     ghost before: Receipt)
    returns (longer: Receipt, rest: map<string, BackendState>)
    requires RowOk(row) && ReceiptValid(before, row.resources) && StateOk(row.contract, held)
    requires Grown(before, receipt, row.resources) && (backend in state <==> backend in held)
    ensures Grown(before, longer, row.resources) && longer.applied == receipt.applied
    ensures CleanedUp(receipt, longer, backend, held) && rest == state - {backend}
  {
    longer, rest := receipt, state - {backend};
    if backend in state {
      longer := CleanUpOne(row, receipt, backend, held);
      GrownIsTransitive(before, receipt, longer, row.resources);
    }
  }

  method CleanUpOne(row: Row, receipt: Receipt, backend: string, held: map<string, BackendState>)
    returns (longer: Receipt)
    requires RowOk(row) && ReceiptValid(receipt, row.resources) && StateOk(row.contract, held) && backend in held
    ensures Grown(receipt, longer, row.resources)
              && LoggedOnce(receipt, longer, backend, held[backend].resources, Cleanup, "cleaned")
  {
    KnownCodes();
    var names := held[backend].resources;
    assert forall name :: name in names ==> name in row.contract;
    var cleaned := BackendCommand();
    if cleaned.Ok? {
      longer := Record(receipt, backend, names, Cleanup, Always(Recorded), "cleaned", row.resources);
    } else {
      longer := Record(receipt, backend, names, Cleanup, Always(Failed), cleaned.code, row.resources);
      assert AllFailed(receipt, longer, backend, names, Cleanup, cleaned.code);
    }
  }

  // ---------------------------------------------------------------- scratch setup

  /** Which of the names provide tmpfs scratch. */
  function ScratchNames(contract: Contract, names: seq<string>): (chosen: seq<string>)
    ensures forall name :: name in chosen <==> name in names && Scratchy(contract, name)
  {
    if names == [] then [] else
      var last := names[|names| - 1];
      var rest := ScratchNames(contract, names[..|names| - 1]);
      assert names == names[..|names| - 1] + [last];
      if Scratchy(contract, last) then rest + [last] else rest
  }

  /** `tmpfs_setup`: nothing to set up exactly when no tmpfs was prepared; otherwise it may fail. What a reliable one
      reports is not empty, and no more than any of the names requested. */
  method TmpfsSetup(row: Row, names: seq<string>, reliable: bool) returns (setup: Result<Option<TmpfsSpace>>)
    requires forall name :: name in row.resources ==> row.resources[name] > 0
    ensures setup.Ok? ==> (setup.value.Some? <==> HoldsKind(row.contract, names, Kind.Tmpfs))
    ensures setup.Err? ==> CodeValid(setup.code) && HoldsKind(row.contract, names, Kind.Tmpfs)
    ensures setup.Ok? && setup.value.Some? && reliable ==> TmpfsFits(row, names, setup.value.value)
  {
    if !HoldsKind(row.contract, names, Kind.Tmpfs) {
      return Ok(None);
    }
    var done := BackendCommand();
    if done.Err? {
      return Err(done.code);
    }
    var size: nat, inodes: nat := *, *;
    if reliable && !TmpfsFits(row, names, TmpfsSpace(size, inodes)) {
      size, inodes := 1, 1;
    }
    return Ok(Some(TmpfsSpace(size, inodes)));
  }

  /** The scratch resources among the names get some of the space, and no more of it than they requested. */
  predicate TmpfsFits(row: Row, names: seq<string>, tmpfs: TmpfsSpace) {
    forall name :: name in names && Scratchy(row.contract, name) && name in row.resources ==>
      0 < (if row.contract[name].kind.Tmpfs? then tmpfs.size else tmpfs.inodes) <= row.resources[name]
  }

  /** A run that holds tmpfs holds no quota. */
  lemma OneProvider(row: Row)
    requires RowOk(row) && CGROUP_BACKEND in row.state && QUOTA_BACKEND in row.state
    ensures !HoldsKind(row.contract, row.state[CGROUP_BACKEND].resources, Kind.Tmpfs)
  {
    var cgroup, quota := row.state[CGROUP_BACKEND].resources, row.state[QUOTA_BACKEND].resources;
    assert PolicyComplete(QUOTA_BACKEND, row.contract, quota) && CGROUP_BACKEND != QUOTA_BACKEND;
    var storage :| storage in quota && storage in row.contract && row.contract[storage].kind == Storage;
    if HoldsKind(row.contract, cgroup, Kind.Tmpfs) {
      var tmpfs :| tmpfs in cgroup && tmpfs in row.contract && row.contract[tmpfs].kind == Kind.Tmpfs;
      assert Scratch(row.contract[storage], Storage) && Scratch(row.contract[tmpfs], Kind.Tmpfs);
    }
  }

  /** A quota that was given up was not required. */
  lemma SetupHolds(contract: Contract, state: States, tmpfs: Option<TmpfsSpace>, quota: bool)
    requires Held(contract, state) && Fresh(state)
    requires TmpfsGiven(contract, tmpfs) && (!quota ==> NoQuotaNeeded(contract))
    ensures Covered(contract, WorkerSetup(tmpfs, quota))
    ensures var kept := if quota then state else state - {QUOTA_BACKEND}; Held(contract, kept) && Fresh(kept)
  {
    var kept := if quota then state else state - {QUOTA_BACKEND};
    forall name | IsRequired(contract, name)
      ensures InRecord(contract, kept, name)
    {
      assert InRecord(contract, state, name);
      assert quota || !NeedsQuota(contract, name);
    }
  }

  predicate CleanupFailed(receipt: Receipt, backend: string) {
    exists i :: 0 <= i < |receipt.events| && receipt.events[i].backend == backend && receipt.events[i].stage.Cleanup?
                && (receipt.events[i].status.Failed? || receipt.events[i].code == "cleanup-failed")
  }

  /** What the setup of a held tmpfs leaves uncovered. */
  lemma TmpfsCovers(row: Row, tmpfs: Option<TmpfsSpace>, name: string)
    requires RowOk(row) && Held(row.contract, row.state) && CGROUP_BACKEND in row.state
    requires tmpfs.Some? <==> HoldsKind(row.contract, row.state[CGROUP_BACKEND].resources, Kind.Tmpfs)
    requires NeedsTmpfs(row.contract, name)
    ensures tmpfs.Some?
  {
    assert InRecord(row.contract, row.state, name);
    assert PolicyComplete(CGROUP_BACKEND, row.contract, row.state[CGROUP_BACKEND].resources);
  }

  // ---------------------------------------------------------------- attach, measure, cancel, finish

  /** The names attachment applies: all of a control-group record but its scratch, and none of a quota. */
  function AttachedNames(contract: Contract, backend: string, names: seq<string>): (chosen: seq<string>)
    ensures forall name :: name in chosen <==> name in names && backend != QUOTA_BACKEND && !Scratchy(contract, name)
  {
    if names == [] then [] else
      var last := names[|names| - 1];
      var rest := AttachedNames(contract, backend, names[..|names| - 1]);
      assert names == names[..|names| - 1] + [last];
      if backend != QUOTA_BACKEND && !Scratchy(contract, last) then rest + [last] else rest
  }

  function Granted(applied: map<string, nat>, names: seq<string>, units: map<string, nat>): (granted: map<string, nat>)
    ensures forall name :: name in granted <==> name in applied || (name in names && name in units)
    ensures forall name :: name in granted ==>
              granted[name] == if name in names && name in units then units[name] else applied[name]
  {
    map name | name in applied.Keys + (set n | n in names && n in units) ::
        if name in names && name in units then units[name] else applied[name]
  }

  lemma GrantIsValid(receipt: Receipt, names: seq<string>, units: map<string, nat>, resources: map<string, nat>)
    requires ReceiptValid(receipt, resources)
    requires forall name :: name in names && name in units ==> name in resources && 0 < units[name] <= resources[name]
    ensures Grown(receipt, receipt.(applied := Granted(receipt.applied, names, units)), resources)
  {
  }

  /** What an attachment adds: the resources that it applies get what was requested and one event each, or every held
      name fails. */
  ghost predicate AttachAnswered(row: Row, before: Receipt, after: Receipt, backend: string, attached: bool)
    requires backend in row.state
  {
    var names := row.state[backend].resources;
    if attached then
      var chosen := AttachedNames(row.contract, backend, names);
      after == before.(applied := Granted(before.applied, chosen, row.resources),
                       events := before.events + Logged(backend, chosen, Attach, Always(Applied), "applied"))
    else
      && after == before.(events := after.events)
      && exists code :: Failing(before.events, after.events, row.contract, backend, names, Attach, code)
  }

  /** Only a backend that holds something for the run is attached. */
  ghost predicate AttachAdded(row: Row, before: Receipt, after: Receipt, backend: string, failed: bool) {
    if backend in row.state then AttachAnswered(row, before, after, backend, !failed) else after == before && !failed
  }

  /** Both backends are attached, whatever the first one answers. */
  ghost predicate BothAttached(row: Row, after: Receipt, cgroupFailed: bool, quotaFailed: bool) {
    exists middle ::
      && AttachAdded(row, row.receipt, middle, CGROUP_BACKEND, cgroupFailed)
      && AttachAdded(row, middle, after, QUOTA_BACKEND, quotaFailed)
  }

  /** A backend that fails while it holds something required makes the whole attachment fail. */
  ghost predicate RequiredFailed(row: Row, cgroupFailed: bool, quotaFailed: bool) {
    || (cgroupFailed && CGROUP_BACKEND in row.state && AnyRequired(row.contract, row.state[CGROUP_BACKEND].resources))
    || (quotaFailed && QUOTA_BACKEND in row.state && AnyRequired(row.contract, row.state[QUOTA_BACKEND].resources))
  }

  /** Attach the worker to one backend, and record the answer. */
  method AttachOne(row: Row, receipt: Receipt, backend: string) returns (longer: Receipt, attached: bool)
    requires RowOk(row) && ReceiptValid(receipt, row.resources) && backend in row.state
    ensures Grown(receipt, longer, row.resources)
    ensures AttachAnswered(row, receipt, longer, backend, attached)
    ensures !attached && AnyRequired(row.contract, row.state[backend].resources) ==>
              Explained(row.contract, longer.events)
  {
    KnownCodes();
    StockCodes();
    RecordedNames(row, backend);
    var names := row.state[backend].resources;
    var done := BackendAttach();
    attached := done.Ok?;
    if attached {
      var chosen := AttachedNames(row.contract, backend, names);
      GrantIsValid(receipt, chosen, row.resources, row.resources);
      longer := receipt.(applied := Granted(receipt.applied, chosen, row.resources));
      ghost var granted := longer;
      longer := Record(longer, backend, chosen, Attach, Always(Applied), "applied", row.resources);
      GrownIsTransitive(receipt, granted, longer, row.resources);
    } else {
      var code := SafeCode(done.code, "attach-failed");
      if AnyRequired(row.contract, names) {
        FailureExplains(row.contract, receipt.events, backend, names, Attach, code);
      }
      longer := Record(receipt, backend, names, Attach, FailureStatus(row.contract), code, row.resources);
      FailuresLogged(receipt.events, row.contract, backend, names, Attach, code);
    }
  }

  /** Attach the worker to one backend if that holds something for the run. */
  method AttachHeld(row: Row, receipt: Receipt, backend: string) returns (longer: Receipt, failed: bool)
    requires RowOk(row) && ReceiptValid(receipt, row.resources)
    ensures Grown(receipt, longer, row.resources)
    ensures AttachAdded(row, receipt, longer, backend, failed)
    ensures failed && AnyRequired(row.contract, row.state[backend].resources) ==> Explained(row.contract, longer.events)
  {
    longer, failed := receipt, false;
    if backend in row.state {
      var attached: bool;
      longer, attached := AttachOne(row, receipt, backend);
      failed := !attached;
    }
  }

  /** Attach the worker to every backend that holds something for the run, in order. */
  method AttachAll(row: Row) returns (receipt: Receipt, cgroupFailed: bool, quotaFailed: bool)
    requires RowOk(row) && Held(row.contract, row.state)
    ensures Grown(row.receipt, receipt, row.resources)
    ensures BothAttached(row, receipt, cgroupFailed, quotaFailed)
    ensures !RequiredFailed(row, cgroupFailed, quotaFailed) ==> Attached(row.contract, receipt.applied)
    ensures RequiredFailed(row, cgroupFailed, quotaFailed) ==> Explained(row.contract, receipt.events)
    ensures cgroupFailed || quotaFailed ==> row.state != map[]
  {
    receipt, cgroupFailed := AttachHeld(row, row.receipt, CGROUP_BACKEND);
    ghost var attached := receipt;
    receipt, quotaFailed := AttachHeld(row, receipt, QUOTA_BACKEND);
    GrownIsTransitive(row.receipt, attached, receipt, row.resources);
    if cgroupFailed && AnyRequired(row.contract, row.state[CGROUP_BACKEND].resources) {
      ExplainedStays(row.contract, attached.events, receipt.events);
    }
    if !RequiredFailed(row, cgroupFailed, quotaFailed) {
      AttachmentCovers(row, attached, receipt, cgroupFailed, quotaFailed);
    }
  }

  /** When no backend with something required failed, everything that attachment applies is applied. */
  lemma AttachmentCovers(row: Row, middle: Receipt, after: Receipt, cgroupFailed: bool, quotaFailed: bool)
    requires RowOk(row) && Held(row.contract, row.state) && !RequiredFailed(row, cgroupFailed, quotaFailed)
    requires AttachAdded(row, row.receipt, middle, CGROUP_BACKEND, cgroupFailed)
    requires AttachAdded(row, middle, after, QUOTA_BACKEND, quotaFailed)
    ensures Attached(row.contract, after.applied)
  {
    forall name | NeedsAttachment(row.contract, name)
      ensures name in after.applied
    {
      assert InRecord(row.contract, row.state, name);
      BackendsDiffer();
      assert name in AttachedNames(row.contract, CGROUP_BACKEND, row.state[CGROUP_BACKEND].resources);
      assert name in middle.applied;
    }
  }

  lemma BackendsDiffer()
    ensures CGROUP_BACKEND != QUOTA_BACKEND
  {
    assert |CGROUP_BACKEND| != |QUOTA_BACKEND|;
  }

  function CancelledStates(state: States): States {
    map backend | backend in state :: state[backend].(cancelled := true)
  }

  function FinishedStates(state: States): States {
    map backend | backend in state :: state[backend].(finished := true)
  }

  function Marked(state: States, backend: string): States {
    if backend in state then state[backend := state[backend].(cancelled := true)] else state
  }

  predicate SomeUncancelled(state: States) {
    exists backend :: backend in state && !state[backend].cancelled
  }

  lemma BothMarked(contract: Contract, state: States)
    requires StateOk(contract, state)
    ensures Marked(Marked(state, CGROUP_BACKEND), QUOTA_BACKEND) == CancelledStates(state)
    ensures SomeUncancelled(state) <==>
              (CGROUP_BACKEND in state && !state[CGROUP_BACKEND].cancelled)
                  || (QUOTA_BACKEND in state && !state[QUOTA_BACKEND].cancelled)
    ensures !SomeUncancelled(state) ==> CancelledStates(state) == state
  {
    BackendsDiffer();
  }

  method CancelOne(row: Row, receipt: Receipt, backend: string) returns (longer: Receipt)
    requires RowOk(row) && ReceiptValid(receipt, row.resources) && backend in row.state
    ensures Grown(receipt, longer, row.resources)
              && LoggedOnce(receipt, longer, backend, row.state[backend].resources, Cancel, "cancelled")
  {
    KnownCodes();
    RecordedNames(row, backend);
    var done := BackendCommand();
    longer := Record(receipt, backend, row.state[backend].resources, Cancel,
                     Always(if done.Ok? then Recorded else Failed),
                     if done.Ok? then "cancelled" else done.code, row.resources);
    assert done.Err? ==> AllFailed(receipt, longer, backend, row.state[backend].resources, Cancel, done.code);
  }

  /** A backend that was not cancelled yet is asked to cancel, and what it answered of each name is on record. */
  ghost predicate CancelAsked(before: Receipt, after: Receipt, state: States, backend: string) {
    if backend in state && !state[backend].cancelled then
      LoggedOnce(before, after, backend, state[backend].resources, Cancel, "cancelled")
    else
      after == before
  }

  ghost predicate AllCancelAsked(before: Receipt, after: Receipt, state: States) {
    exists middle ::
      CancelAsked(before, middle, state, CGROUP_BACKEND) && CancelAsked(middle, after, state, QUOTA_BACKEND)
  }

  /** Cancel one backend, once. */
  method CancelHeld(row: Row, receipt: Receipt, state: States, backend: string)
    returns (longer: Receipt, marked: States, changed: bool)
    requires RowOk(row) && ReceiptValid(receipt, row.resources) && backend in {CGROUP_BACKEND, QUOTA_BACKEND}
    requires backend in state ==> backend in row.state && state[backend] == row.state[backend]
    ensures Grown(receipt, longer, row.resources) && longer.applied == receipt.applied
    ensures marked == Marked(state, backend)
    ensures changed <==> backend in state && !state[backend].cancelled
    ensures CancelAsked(receipt, longer, state, backend)
  {
    longer, marked, changed := receipt, state, false;
    if backend in state && !state[backend].cancelled {
      longer := CancelOne(row, receipt, backend);
      marked := state[backend := state[backend].(cancelled := true)];
      changed := true;
    }
  }

  lemma CancelledIsOk(contract: Contract, state: States)
    requires StateOk(contract, state)
    ensures StateOk(contract, CancelledStates(state)) && StateOk(contract, FinishedStates(state))
    ensures CancelledStates(state) == map[] <==> state == map[]
  {
    assert CancelledStates(state).Keys == state.Keys;
  }

  lemma ReceiptReplaced(row: Row, receipt: Receipt)
    requires RowOk(row) && ReceiptValid(receipt, row.resources)
    ensures RowOk(row.(receipt := receipt))
  {
  }

  /** Cancel every backend that was not cancelled yet. */
  method CancelAll(row: Row, before: Receipt) returns (receipt: Receipt, state: States, changed: bool)
    requires RowOk(row) && ReceiptValid(before, row.resources)
    ensures Grown(before, receipt, row.resources) && receipt.applied == before.applied
    ensures state == CancelledStates(row.state)
    ensures changed <==> SomeUncancelled(row.state)
    ensures AllCancelAsked(before, receipt, row.state)
    ensures !changed ==> receipt == before && state == row.state
  {
    BackendsDiffer();
    BothMarked(row.contract, row.state);
    var first: bool, second: bool;
    receipt, state, first := CancelHeld(row, before, row.state, CGROUP_BACKEND);
    ghost var cancelled := receipt;
    receipt, state, second := CancelHeld(row, receipt, state, QUOTA_BACKEND);
    GrownIsTransitive(before, cancelled, receipt, row.resources);
    changed := first || second;
    assert CancelAsked(before, cancelled, row.state, CGROUP_BACKEND);
    assert CancelAsked(cancelled, receipt, row.state, QUOTA_BACKEND);
  }

  /** What the two backends answer when they are asked to measure or to finish. */
  datatype Answers = Answers(cgroup: Result<Measurement>, quota: Result<Measurement>)

  /** This failure of the backend's measurement is on record already. */
  predicate FailureKnown(receipt: Receipt, backend: string, code: string) {
    exists i :: 0 <= i < |receipt.events| && receipt.events[i].backend == backend && receipt.events[i].stage.Usage?
                && receipt.events[i].code == code
  }

  /** Which events on record count as a failed measurement with this code, and which as a failed cleanup. */
  lemma FailuresOnRecord(receipt: Receipt, backend: string, code: string)
    ensures FailureKnown(receipt, backend, code) <==>
              exists event ::
                event in receipt.events && event.backend == backend && event.stage == Usage && event.code == code
    ensures CleanupFailed(receipt, backend) <==>
              exists event ::
                event in receipt.events && event.backend == backend && event.stage == Cleanup
                && (event.status == Failed || event.code == "cleanup-failed")
  {
    forall event | event in receipt.events
      ensures exists i :: 0 <= i < |receipt.events| && receipt.events[i] == event
    {
    }
  }

  /** The backend holds something of this run that was not finished. */
  predicate Unfinished(state: States, backend: string) {
    backend in state && !state[backend].finished
  }

  /** What one answer of a backend that is measured adds to the receipt: the merged measurement, or one failure of
      each held name when that failure is new. */
  ghost predicate UsageAdded(before: Receipt, after: Receipt, state: States, backend: string,
                             answer: Result<Measurement>)
  {
    if !Unfinished(state, backend) then after == before
    else if answer.Ok? then after == Merged(before, backend, Usage, answer.value)
    else
      var code := SafeCode(answer.code, "usage-failed");
      after == if FailureKnown(before, backend, code) then before
               else before.(events := before.events
                                      + Logged(backend, state[backend].resources, Usage, Always(Failed), code))
  }

  /** What one answer of a backend that is finished adds to the receipt: its last measurement, and then exactly one
      event of each held name. */
  ghost predicate FinishAdded(before: Receipt, after: Receipt, state: States, backend: string,
                              answer: Result<Measurement>)
  {
    if !Unfinished(state, backend) then after == before
    else
      var merged := if answer.Ok? then Merged(before, backend, Stage.Finish, answer.value) else before;
      var status, code := if answer.Ok? then Recorded else Failed, if answer.Ok? then "finished" else answer.code;
      after == merged.(events := merged.events
                                 + Logged(backend, state[backend].resources, Stage.Finish, Always(status), code))
  }

  /** Whatever was not finished is finished, each backend once, and then everything is cleaned up. */
  ghost predicate FinishedAndCleaned(run: Row, answers: Answers, after: Receipt) {
    exists first, second ::
      && FinishAdded(run.receipt, first, run.state, CGROUP_BACKEND, answers.cgroup)
      && FinishAdded(first, second, run.state, QUOTA_BACKEND, answers.quota)
      && AllCleanedUp(second, after, FinishedStates(run.state))
  }

  /** A backend that still measures answered with a measurement that does not fit the run. */
  ghost predicate Misreported(run: Row, answers: Answers) {
    || (Unfinished(run.state, CGROUP_BACKEND) && answers.cgroup.Ok?
        && !MeasurementValid(answers.cgroup.value, run.resources))
    || (Unfinished(run.state, QUOTA_BACKEND) && answers.quota.Ok?
        && !MeasurementValid(answers.quota.value, run.resources))
  }

  /** The codes of errors that a backend reports when it finishes are valid. */
  predicate CodesValid(answers: Answers) {
    && (answers.cgroup.Err? ==> CodeValid(answers.cgroup.code))
    && (answers.quota.Err? ==> CodeValid(answers.quota.code))
  }

  /** The measurement of one backend, which is recorded once for each way it fails. */
  method MeasureHeld(row: Row, receipt: Receipt, backend: string, answer: Result<Measurement>)
    returns (longer: Result<Receipt>)
    requires RowOk(row) && ReceiptValid(receipt, row.resources)
    ensures longer.Ok? ==> Grown(receipt, longer.value, row.resources) && longer.value.applied == receipt.applied
    ensures longer.Ok? ==> UsageAdded(receipt, longer.value, row.state, backend, answer)
    ensures longer.Err? <==>
              Unfinished(row.state, backend) && answer.Ok? && !MeasurementValid(answer.value, row.resources)
  {
    if !Unfinished(row.state, backend) {
      return Ok(receipt);
    }
    StockCodes();
    RecordedNames(row, backend);
    if answer.Ok? {
      longer := MergeMeasurement(receipt, row.resources, backend, Usage, answer.value);
      return;
    }
    var code := SafeCode(answer.code, "usage-failed");
    if FailureKnown(receipt, backend, code) {
      return Ok(receipt);
    }
    var recorded := Record(receipt, backend, row.state[backend].resources, Usage, Always(Failed), code, row.resources);
    return Ok(recorded);
  }

  /** Finish one backend, once: its last measurement, and then the event. */
  method FinishHeld(row: Row, receipt: Receipt, backend: string, answer: Result<Measurement>)
    returns (longer: Result<Receipt>)
    requires RowOk(row) && ReceiptValid(receipt, row.resources) && (answer.Err? ==> CodeValid(answer.code))
    ensures longer.Ok? ==> Grown(receipt, longer.value, row.resources) && longer.value.applied == receipt.applied
    ensures longer.Ok? ==> FinishAdded(receipt, longer.value, row.state, backend, answer)
    ensures longer.Err? <==>
              Unfinished(row.state, backend) && answer.Ok? && !MeasurementValid(answer.value, row.resources)
  {
    if !Unfinished(row.state, backend) {
      return Ok(receipt);
    }
    KnownCodes();
    RecordedNames(row, backend);
    var merged := receipt;
    if answer.Ok? {
      merged :- MergeMeasurement(receipt, row.resources, backend, Stage.Finish, answer.value);
    }
    var recorded := Record(merged, backend, row.state[backend].resources, Stage.Finish,
                           Always(if answer.Ok? then Recorded else Failed),
                           if answer.Ok? then "finished" else answer.code, row.resources);
    GrownIsTransitive(receipt, merged, recorded, row.resources);
    return Ok(recorded);
  }

  /** Whatever is held was asked to cancel, and then cleaned up. */
  ghost predicate GivenUpAfter(before: Receipt, after: Receipt, held: States) {
    exists cancelled :: AllCancelAsked(before, cancelled, held) && AllCleanedUp(cancelled, after, held)
  }

  /** What both backends answered is on record, and everything is given up exactly when one of them failed. */
  ghost predicate AttachmentSettled(run: Row, after: Row, cgroupFailed: bool, quotaFailed: bool) {
    if cgroupFailed || quotaFailed then
      && after.state == map[]
      && exists receipt ::
         BothAttached(run, receipt, cgroupFailed, quotaFailed) && GivenUpAfter(receipt, after.receipt, run.state)
    else
      after.state == run.state && BothAttached(run, after.receipt, false, false)
  }

  lemma SameNamesCleanedUp(before: Receipt, after: Receipt, held: States, others: States)
    requires AllCleanedUp(before, after, others) && others.Keys == held.Keys
    requires forall backend :: backend in held ==> others[backend].resources == held[backend].resources
    ensures AllCleanedUp(before, after, held)
  {
    var middle :| CleanedUp(before, middle, CGROUP_BACKEND, others) && CleanedUp(middle, after, QUOTA_BACKEND, others);
    assert CleanedUp(before, middle, CGROUP_BACKEND, held) && CleanedUp(middle, after, QUOTA_BACKEND, held);
  }

  // ---------------------------------------------------------------- what the worker reports

  /** The units a tmpfs gives to each scratch resource. */
  function TmpfsUnits(contract: Contract, names: seq<string>, tmpfs: TmpfsSpace): map<string, nat> {
    map name | name in names && name in contract ::
        if contract[name].kind == Kind.Tmpfs then tmpfs.size else tmpfs.inodes
  }

  /** Setup problems that concern the whole namespace, not only scratch space. */
  predicate NamespaceFailure(code: string) {
    "namespace-" <= code || code == "controller-files-exposed" || code == "tmpfs-namespace-required"
  }

  /** A reported setup fits what the run holds: one provider at most, which the run holds, with space for each of its
      scratch resources and no more than requested. */
  ghost predicate SetupFits(row: Row, setup: WorkerSetup) {
    && !(setup.tmpfs.Some? && setup.quota)
    && (setup.tmpfs.Some? ==>
          CGROUP_BACKEND in row.state && TmpfsFits(row, row.state[CGROUP_BACKEND].resources, setup.tmpfs.value))
    && (setup.quota ==> QUOTA_BACKEND in row.state)
  }

  /** What a setup adds: a tmpfs applies its size to the tmpfs resources of the run and its inodes to the others, a
      quota
      applies what was requested, and each applied resource gets one event. */
  ghost predicate SetupAdded(row: Row, after: Receipt, setup: WorkerSetup) {
    var before := row.receipt;
    if setup.tmpfs.Some? then
      && CGROUP_BACKEND in row.state
      && var names := ScratchNames(row.contract, row.state[CGROUP_BACKEND].resources);
         && after == before.(applied := after.applied,
                             events := before.events
                             + Logged(CGROUP_BACKEND, names, Attach, Always(Applied), "tmpfs-mounted"))
         && SpaceApplied(row.contract, before.applied, after.applied, names, setup.tmpfs.value)
    else if setup.quota then
      && QUOTA_BACKEND in row.state
      && var names := row.state[QUOTA_BACKEND].resources;
         after == before.(applied := Granted(before.applied, names, row.resources),
                          events := before.events + Logged(QUOTA_BACKEND, names, Attach, Always(Applied),
                                                           "quota-ready"))
    else
      after == before
  }

  ghost predicate SpaceApplied(contract: Contract, before: map<string, nat>, after: map<string, nat>,
                               names: seq<string>,
                               tmpfs: TmpfsSpace)
  {
    && (forall name :: name in after <==> name in before || name in names)
    && (forall name :: name in after && name !in names ==> after[name] == before[name])
    && (forall name :: name in after && name in names && name in contract && contract[name].kind.Tmpfs? ==>
          after[name] == tmpfs.size)
    && (forall name :: name in after && name in names && name in contract && contract[name].kind.Inodes? ==>
          after[name] == tmpfs.inodes)
  }

  /** The applied resources after a successful setup. */
  method ApplySetup(row: Row, setup: WorkerSetup) returns (receipt: Result<Receipt>)
    requires RowOk(row)
    ensures receipt.Ok? <==> SetupFits(row, setup)
    ensures receipt.Ok? ==> Grown(row.receipt, receipt.value, row.resources) && SetupAdded(row, receipt.value, setup)
  {
    var longer := row.receipt;
    if setup.tmpfs.Some? {
      if CGROUP_BACKEND !in row.state {
        return Err("broker-row-invalid");
      }
      longer :- ApplyTmpfs(row, setup.tmpfs.value);
    }
    if setup.quota {
      if QUOTA_BACKEND !in row.state {
        return Err("broker-row-invalid");
      }
      longer := ApplyQuota(row, longer);
    }
    if setup.tmpfs.Some? && setup.quota {
      return Err("broker-row-invalid");
    }
    return Ok(longer);
  }

  lemma UnitsFit(row: Row, held: seq<string>, tmpfs: TmpfsSpace)
    ensures var units := TmpfsUnits(row.contract, ScratchNames(row.contract, held), tmpfs);
            TmpfsFits(row, held, tmpfs) <==>
              forall name :: name in units && name in row.resources ==> 0 < units[name] <= row.resources[name]
  {
    var names := ScratchNames(row.contract, held);
    var units := TmpfsUnits(row.contract, names, tmpfs);
    assert forall name :: name in units <==> name in held && Scratchy(row.contract, name);
  }

  lemma SpaceIsApplied(row: Row, names: seq<string>, tmpfs: TmpfsSpace)
    requires forall name :: name in names ==> Scratchy(row.contract, name)
    ensures SpaceApplied(row.contract, row.receipt.applied,
                         Granted(row.receipt.applied, names, TmpfsUnits(row.contract, names, tmpfs)), names, tmpfs)
  {
  }

  method ApplyTmpfs(row: Row, tmpfs: TmpfsSpace) returns (longer: Result<Receipt>)
    requires RowOk(row) && CGROUP_BACKEND in row.state
    ensures longer.Ok? <==> TmpfsFits(row, row.state[CGROUP_BACKEND].resources, tmpfs)
    ensures longer.Ok? ==>
              Grown(row.receipt, longer.value, row.resources)
                  && SetupAdded(row, longer.value, WorkerSetup(Some(tmpfs), false))
  {
    KnownCodes();
    RecordedNames(row, CGROUP_BACKEND);
    var names := ScratchNames(row.contract, row.state[CGROUP_BACKEND].resources);
    var units := TmpfsUnits(row.contract, names, tmpfs);
    UnitsFit(row, row.state[CGROUP_BACKEND].resources, tmpfs);
    if exists name ::
        name in units && name in row.resources && (units[name] == 0 || units[name] > row.resources[name]) {
      return Err("broker-row-invalid");
    }
    GrantIsValid(row.receipt, names, units, row.resources);
    var granted := row.receipt.(applied := Granted(row.receipt.applied, names, units));
    SpaceIsApplied(row, names, tmpfs);
    var recorded := Record(granted, CGROUP_BACKEND, names, Attach, Always(Applied), "tmpfs-mounted", row.resources);
    GrownIsTransitive(row.receipt, granted, recorded, row.resources);
    return Ok(recorded);
  }

  method ApplyQuota(row: Row, receipt: Receipt) returns (longer: Receipt)
    requires RowOk(row) && QUOTA_BACKEND in row.state && Grown(row.receipt, receipt, row.resources)
    ensures Grown(row.receipt, longer, row.resources)
    ensures receipt == row.receipt ==> SetupAdded(row, longer, WorkerSetup(None, true))
  {
    KnownCodes();
    RecordedNames(row, QUOTA_BACKEND);
    var names := row.state[QUOTA_BACKEND].resources;
    GrantIsValid(receipt, names, row.resources, row.resources);
    longer := receipt.(applied := Granted(receipt.applied, names, row.resources));
    ghost var granted := longer;
    longer := Record(longer, QUOTA_BACKEND, names, Attach, Always(Applied), "quota-ready", row.resources);
    GrownIsTransitive(receipt, granted, longer, row.resources);
    GrownIsTransitive(row.receipt, receipt, longer, row.resources);
  }

  /** Attachment and setup together apply everything that is required. */
  lemma EverythingApplied(row: Row, setup: WorkerSetup, after: Receipt)
    requires RowOk(row) && Covered(row.contract, setup) && Attached(row.contract, row.receipt.applied)
    requires Held(row.contract, row.state) || row.state == map[]
    requires SetupFits(row, setup) && SetupAdded(row, after, setup) && OnlyTwoBackends(row.contract)
    ensures RequiredApplied(row.contract, after.applied)
  {
    forall name | IsRequired(row.contract, name)
      ensures name in after.applied
    {
      assert NeedsAttachment(row.contract, name) || NeedsTmpfs(row.contract, name) || NeedsQuota(row.contract, name);
      if !NeedsAttachment(row.contract, name) {
        assert InRecord(row.contract, row.state, name);
        RecordedNames(row, row.contract[name].backend.value);
      }
    }
  }

  /** What is required has one of the two backends, which is what being held shows. */
  ghost predicate OnlyTwoBackends(contract: Contract) {
    forall name :: IsRequired(contract, name) ==>
        contract[name].backend == Some(CGROUP_BACKEND) || contract[name].backend == Some(QUOTA_BACKEND)
  }

  lemma HeldByTwo(contract: Contract, state: States)
    requires Held(contract, state) && StateOk(contract, state)
    ensures OnlyTwoBackends(contract)
  {
    forall name | IsRequired(contract, name)
      ensures contract[name].backend == Some(CGROUP_BACKEND) || contract[name].backend == Some(QUOTA_BACKEND)
    {
      assert InRecord(contract, state, name);
    }
  }

  function Without(applied: map<string, nat>, names: seq<string>): map<string, nat> {
    map name | name in applied && name !in names :: applied[name]
  }

  lemma RevokedIsValid(receipt: Receipt, names: seq<string>, resources: map<string, nat>)
    requires ReceiptValid(receipt, resources)
    ensures Grown(receipt, receipt.(applied := Without(receipt.applied, names)), resources)
  {
  }

  /** Each affected name fails once under this code, and is no longer applied when `revoked`. */
  ghost predicate BackendRefused(row: Row, before: Receipt, after: Receipt, backend: string, affected: seq<string>,
                                 revoked: bool, code: string)
  {
    && after == before.(applied := after.applied, events := after.events)
    && Failing(before.events, after.events, row.contract, backend, affected, Attach, code)
    && (if revoked then LeftApplied(before.applied, after.applied, affected) else after.applied == before.applied)
  }

  ghost predicate LeftApplied(before: map<string, nat>, after: map<string, nat>, affected: seq<string>) {
    && (forall name :: name in after <==> name in before && name !in affected)
    && forall name :: name in after ==> after[name] == before[name]
  }

  /** What a failed setup with this code leaves: of a control group its scratch resources fail, and with a problem of
      the
      whole namespace all of it fails and is no longer applied; a quota fails and is no longer applied. */
  ghost predicate SetupRefused(row: Row, after: Receipt, code: string) {
    exists middle :: CgroupRefused(row, middle, code) && QuotaRefused(row, middle, after, code)
  }

  ghost predicate CgroupRefused(row: Row, after: Receipt, code: string) {
    if CGROUP_BACKEND !in row.state then after == row.receipt
    else
      var names := row.state[CGROUP_BACKEND].resources;
      if OfNamespace(code) then BackendRefused(row, row.receipt, after, CGROUP_BACKEND, names, true, code)
      else
        BackendRefused(row, row.receipt, after, CGROUP_BACKEND, ScratchNames(row.contract, names), false, code)
  }

  ghost predicate QuotaRefused(row: Row, before: Receipt, after: Receipt, code: string) {
    if QUOTA_BACKEND !in row.state then after == before
    else BackendRefused(row, before, after, QUOTA_BACKEND, row.state[QUOTA_BACKEND].resources, true, code)
  }

  ghost predicate OfNamespace(code: string) {
    "namespace-" <= code || code == "controller-files-exposed" || code == "tmpfs-namespace-required"
  }

  /** A failed setup is fatal with a quota, with a problem of the whole namespace, or when it concerns required
      scratch. */
  ghost predicate SetupFatal(row: Row, code: string) {
    || QUOTA_BACKEND in row.state
    || (CGROUP_BACKEND in row.state
        && (OfNamespace(code)
            || exists name :: name in row.state[CGROUP_BACKEND].resources && NeedsScratch(row.contract, name)))
  }

  ghost predicate NeedsScratch(contract: Contract, name: string) {
    Scratchy(contract, name) && IsRequired(contract, name)
  }

  /** There is something that a failed setup can concern. */
  ghost predicate SetupConcerns(row: Row, code: string) {
    || (QUOTA_BACKEND in row.state && row.state[QUOTA_BACKEND].resources != [])
    || (CGROUP_BACKEND in row.state
        && if OfNamespace(code) then row.state[CGROUP_BACKEND].resources != []
           else exists name :: name in row.state[CGROUP_BACKEND].resources && Scratchy(row.contract, name))
  }

  /** Record a failed setup for one backend, whose names are no longer applied when `revoked`. */
  method RefuseBackend(row: Row, receipt: Receipt, backend: string, affected: seq<string>, revoked: bool, code: string)
    returns (longer: Receipt)
    requires RowOk(row) && Grown(row.receipt, receipt, row.resources) && CodeValid(code) && backend in row.state
    requires forall name :: name in affected ==> name in row.state[backend].resources
    ensures Grown(row.receipt, longer, row.resources)
    ensures BackendRefused(row, receipt, longer, backend, affected, revoked, code)
  {
    RecordedNames(row, backend);
    longer := if revoked then receipt.(applied := Without(receipt.applied, affected)) else receipt;
    RevokedIsValid(receipt, affected, row.resources);
    ghost var reduced := longer;
    longer := Record(longer, backend, affected, Attach, FailureStatus(row.contract), code, row.resources);
    FailuresLogged(receipt.events, row.contract, backend, affected, Attach, code);
    GrownIsTransitive(receipt, reduced, longer, row.resources);
    GrownIsTransitive(row.receipt, receipt, longer, row.resources);
  }

  /** The receipt after a setup that failed with this code: what the failure concerns is no longer applied. */
  method RefuseSetup(row: Row, code: string) returns (receipt: Receipt, recorded: bool, requiredFailure: bool)
    requires RowOk(row) && CodeValid(code)
    ensures Grown(row.receipt, receipt, row.resources) && SetupRefused(row, receipt, code)
    ensures recorded <==> SetupConcerns(row, code)
    ensures requiredFailure <==> SetupFatal(row, code)
  {
    var middle: Receipt;
    middle, recorded, requiredFailure := RefuseCgroup(row, code);
    receipt := middle;
    if QUOTA_BACKEND in row.state {
      var names := row.state[QUOTA_BACKEND].resources;
      receipt := RefuseBackend(row, receipt, QUOTA_BACKEND, names, true, code);
      recorded := recorded || names != [];
      requiredFailure := true;
    }
    assert CgroupRefused(row, middle, code) && QuotaRefused(row, middle, receipt, code);
  }

  /** The part of a failed setup that concerns the control group. */
  method RefuseCgroup(row: Row, code: string) returns (receipt: Receipt, recorded: bool, requiredFailure: bool)
    requires RowOk(row) && CodeValid(code)
    ensures Grown(row.receipt, receipt, row.resources) && CgroupRefused(row, receipt, code)
    ensures QUOTA_BACKEND !in row.state ==>
              (recorded <==> SetupConcerns(row, code)) && (requiredFailure <==> SetupFatal(row, code))
    ensures QUOTA_BACKEND in row.state && recorded ==> SetupConcerns(row, code)
    ensures QUOTA_BACKEND in row.state && SetupConcerns(row, code) ==>
              recorded || row.state[QUOTA_BACKEND].resources != []
  {
    receipt, recorded, requiredFailure := row.receipt, false, false;
    if CGROUP_BACKEND in row.state {
      var names := row.state[CGROUP_BACKEND].resources;
      var affected := if NamespaceFailure(code) then names else ScratchNames(row.contract, names);
      requiredFailure := NamespaceFailure(code) || AnyRequired(row.contract, affected);
      receipt := RefuseBackend(row, receipt, CGROUP_BACKEND, affected, NamespaceFailure(code), code);
      recorded := affected != [];
      assert affected != [] ==> affected[0] in affected;
      assert AnyRequired(row.contract, ScratchNames(row.contract, names)) <==>
          exists name :: name in names && NeedsScratch(row.contract, name);
    }
  }

  /** The run holds a tmpfs to set up. */
  ghost predicate HoldsTmpfs(run: Row) {
    CGROUP_BACKEND in run.state && HoldsKind(run.contract, run.state[CGROUP_BACKEND].resources, Kind.Tmpfs)
  }

  /** A held tmpfs is set up, or its scratch resources fail once each, which is fatal if one of them is required. */
  ghost predicate TmpfsSettled(run: Row, after: Row, tmpfs: Option<TmpfsSpace>, usable: bool) {
    if tmpfs.Some? || !HoldsTmpfs(run) then
      usable && Undisturbed(run, after) && (tmpfs.Some? ==> HoldsTmpfs(run))
    else
      var names := run.state[CGROUP_BACKEND].resources;
      && after.state == run.state && after.receipt == run.receipt.(events := after.receipt.events)
      && FailedOnce(run.receipt.events, after.receipt.events, run.contract, CGROUP_BACKEND,
                    ScratchNames(run.contract, names), Attach)
      && (usable <==> !exists name :: name in names && NeedsScratch(run.contract, name))
  }

  /** A held quota is used, or it fails once for each of its resources and is cleaned up, which is fatal if one of them
      is required or the cleanup fails. */
  ghost predicate QuotaSettled(run: Row, before: Row, after: Row, quota: bool, usable: bool) {
    if quota || QUOTA_BACKEND !in run.state then
      usable && Undisturbed(before, after) && (quota ==> QUOTA_BACKEND in run.state)
    else
      var names := run.state[QUOTA_BACKEND].resources;
      && QuotaGivenUp(run, before.receipt, after.receipt)
      && (usable <==> !AnyRequired(run.contract, names) && !CleanupFailed(after.receipt, QUOTA_BACKEND))
  }

  /** A tmpfs that may not be used ends the setup, and otherwise the quota decides from the row `middle`. What reliable
      backends set up fits. */
  ghost predicate SetupSettled(run: Row, middle: Option<Row>, after: Row, setup: WorkerSetup, usable: bool,
                               reliable: bool)
  {
    && (usable && reliable ==> SetupFits(after, setup))
    && if middle.None? then !usable && !setup.quota && TmpfsSettled(run, after, setup.tmpfs, false)
       else
         TmpfsSettled(run, middle.value, setup.tmpfs, true)
         && QuotaSettled(run, middle.value, after, setup.quota, usable)
  }

  /** The two halves of a setup make one that the run holds and that covers what is required. */
  lemma SettledSetup(run: Row, middle: Row, after: Row, tmpfs: Option<TmpfsSpace>, quota: bool, usable: bool,
                     reliable: bool)
    requires RowOk(run) && Held(run.contract, run.state) && Fresh(run.state)
    requires SameRequest(run, after)
    requires after.state == if quota then run.state else run.state - {QUOTA_BACKEND}
    requires TmpfsGiven(run.contract, tmpfs) && (usable && !quota ==> NoQuotaNeeded(run.contract))
    requires TmpfsSettled(run, middle, tmpfs, true) && QuotaSettled(run, middle, after, quota, usable)
    requires tmpfs.Some? && reliable ==> TmpfsFits(run, run.state[CGROUP_BACKEND].resources, tmpfs.value)
    ensures SetupSettled(run, Some(middle), after, WorkerSetup(tmpfs, quota), usable, reliable)
    ensures usable ==>
              Held(after.contract, after.state) && Fresh(after.state)
              && Covered(after.contract, WorkerSetup(tmpfs, quota))
  {
    BackendsDiffer();
    if usable {
      SetupHolds(run.contract, run.state, tmpfs, quota);
    }
    if tmpfs.Some? && quota {
      OneProvider(run);
    }
    if usable && reliable && tmpfs.Some? {
      assert after.state[CGROUP_BACKEND] == run.state[CGROUP_BACKEND];
      FitsAlike(run, after, run.state[CGROUP_BACKEND].resources, tmpfs.value);
    }
  }

  lemma RestIsOk(contract: Contract, state: States)
    requires StateOk(contract, state)
    ensures StateOk(contract, state - {QUOTA_BACKEND})
  {
  }

  /** Each resource of a quota that cannot be used fails, and the quota is cleaned up. */
  method RefuseQuota(run: Row, code: string) returns (receipt: Receipt)
    requires RowOk(run) && QUOTA_BACKEND in run.state && CodeValid(code)
    ensures Grown(run.receipt, receipt, run.resources) && receipt.applied == run.receipt.applied
    ensures QuotaGivenUp(run, run.receipt, receipt)
  {
    var names := run.state[QUOTA_BACKEND].resources;
    RecordedNames(run, QUOTA_BACKEND);
    var refused := Record(run.receipt, QUOTA_BACKEND, names, Attach, FailureStatus(run.contract), code, run.resources);
    FailuresLogged(run.receipt.events, run.contract, QUOTA_BACKEND, names, Attach, code);
    receipt := CleanUpOne(run, refused, QUOTA_BACKEND, run.state);
    GrownIsTransitive(run.receipt, refused, receipt, run.resources);
    RefusedIsGivenUp(run, refused, receipt, code);
  }

  lemma RefusedIsGivenUp(run: Row, refused: Receipt, receipt: Receipt, code: string)
    requires QUOTA_BACKEND in run.state && refused == run.receipt.(events := refused.events)
    requires Failing(run.receipt.events, refused.events, run.contract, QUOTA_BACKEND,
                     run.state[QUOTA_BACKEND].resources, Attach, code)
    requires refused.events <= receipt.events && CleanedUp(refused, receipt, QUOTA_BACKEND, run.state)
    ensures QuotaGivenUp(run, run.receipt, receipt)
  {
    var n := |run.receipt.events|;
    assert receipt.events[..|refused.events|] == refused.events;
    assert run.receipt.(events := refused.events) == refused;
    if run.state[QUOTA_BACKEND].resources != [] {
      assert refused.events[n + 0].resource == run.state[QUOTA_BACKEND].resources[0];
    }
  }

  lemma FitsAlike(run: Row, after: Row, names: seq<string>, tmpfs: TmpfsSpace)
    requires SameRequest(run, after) && TmpfsFits(run, names, tmpfs)
    ensures TmpfsFits(after, names, tmpfs)
  {
  }

  ghost predicate QuotaGivenUp(run: Row, before: Receipt, after: Receipt)
    requires QUOTA_BACKEND in run.state
  {
    var names := run.state[QUOTA_BACKEND].resources;
    var n := |before.events| + |names|;
    && n <= |after.events|
    && FailedOnce(before.events, after.events[..n], run.contract, QUOTA_BACKEND, names, Attach)
    && CleanedUp(before.(events := after.events[..n]), after, QUOTA_BACKEND, run.state)
  }

  /** The durable row of one run and everything it has been. */
  class Store {
    var history: seq<Row>
    const capabilities: map<string, Capability>
    /** The database does not fail, and what backends report fits the run. */
    const reliable: bool

    constructor (row: Row, capabilities: map<string, Capability>, reliable: bool)
      requires RowOk(row)
      ensures history == [row] && HistoryOk(history) && this.capabilities == capabilities && this.reliable == reliable
    {
      history, this.capabilities, this.reliable := [row], capabilities, reliable;
    }

    /** Clients may act. */
    method Clients()
      requires Active(history)
      modifies `history
      ensures Active(history) && old(history) <= history
      ensures Undisturbed(old(Last(history)), Last(history))
    {
    }

    /** `load_run`. The database may fail at any access. */
    method Load() returns (row: Result<Row>)
      requires Active(history)
      modifies `history
      ensures Active(history) && old(history) <= history
      ensures Undisturbed(old(Last(history)), Last(history))
      ensures row.Ok? ==> row.value == Last(history) && RowOk(row.value)
      ensures row.Err? ==> !reliable
    {
      Clients();
      LastIsOk(history);
      if !reliable {
        if * {
          return Err("broker-database-failed");
        }
      }
      return Ok(history[|history| - 1]);
    }

    /** `save_resource_records`. Its check of the receipt can never fail. */
    method Save(receipt: Receipt, state: map<string, BackendState>) returns (saved: Result<()>)
      requires Active(history)
      requires Grown(Last(history).receipt, receipt, Last(history).resources)
      requires StateOk(Last(history).contract, state)
      modifies `history
      ensures Active(history) && old(history) <= history
      ensures saved.Err? ==> Undisturbed(old(Last(history)), Last(history))
      ensures saved.Err? ==> !reliable
      ensures saved.Ok? ==> Last(history).receipt == receipt && Last(history).state == state
                            && Undisturbed(old(Last(history)).(receipt := receipt, state := state), Last(history))
    {
      Clients();
      var row := history[|history| - 1];
      if !reliable {
        if * {
          return Err("broker-database-failed");
        }
      }
      if !ReceiptValid(receipt, row.resources) {
        assert false;
        return Err("broker-row-invalid");
      }
      var next := row.(receipt := receipt, state := state);
      assert SaveStep(row, next);
      HistoryGrows(history, next);
      history := history + [next];
      return Ok(());
    }

    /** `prepare_resources`: either every required resource is held by its backend, or nothing is held. `answered` is
        the receipt once the backends were asked, which held `held` then. */
    method PrepareResources(run: Row)
      returns (prepared: Result<bool>, ghost eligible: map<string, seq<string>>, ghost held: States,
               ghost answered: Receipt)
      requires Active(history) && Undisturbed(run, Last(history)) && RowOk(run) && run.state == map[]
      modifies `history
      ensures Active(history) && old(history) <= history && SameRequest(old(Last(history)), Last(history))
      ensures prepared == Ok(true) ==> Held(Last(history).contract, Last(history).state) && Fresh(Last(history).state)
      ensures prepared == Ok(false) ==>
                Last(history).state == map[] && Explained(run.contract, Last(history).receipt.events)
      ensures Last(history).receipt.applied == run.receipt.applied
      // Every issue and every answer is on record, and it fails exactly when one of them concerns something required.
      ensures EligibleUpTo(run, eligible, capabilities, |run.names|)
                && Asked(run, capabilities, eligible, held, answered)
      ensures prepared.Ok? ==>
                prepared.value == !(RequiredIssue(run, capabilities, |run.names|)
                                    || RequiredRefused(run.contract, eligible, eligible.Keys, held))
      ensures prepared == Ok(true) ==> Last(history).receipt == answered && Last(history).state == held
      ensures prepared == Ok(false) ==> AllCleanedUp(answered, Last(history).receipt, held)
      ensures prepared.Err? ==> !reliable
    {
      var receipt: Receipt, state: States, chosen: map<string, seq<string>>, requiredFailure: bool;
      receipt, chosen, state, requiredFailure := AskBackends(run, capabilities);
      eligible, held, answered := chosen, state, receipt;
      if requiredFailure {
        receipt, state := CleanUp(run, receipt, state);
        GrownIsTransitive(run.receipt, answered, receipt, run.resources);
        ExplainedStays(run.contract, answered.events, receipt.events);
      }
      var saved := Save(receipt, state);
      prepared := if saved.Ok? then Ok(!requiredFailure) else Err(saved.code);
    }

    /** The tmpfs half of `prepare_worker_setup`. Nothing is saved unless the setup of a held tmpfs failed. */
    method SetUpTmpfs(run: Row) returns (tmpfs: Result<Option<TmpfsSpace>>, usable: bool)
      requires Active(history) && Undisturbed(run, Last(history)) && RowOk(run) && Held(run.contract, run.state)
      modifies `history
      ensures Active(history) && old(history) <= history && SameRequest(old(Last(history)), Last(history))
      ensures tmpfs.Ok? ==> Last(history).state == run.state && Last(history).receipt.applied == run.receipt.applied
      ensures tmpfs.Ok? ==> (Undisturbed(run, Last(history)) || QUOTA_BACKEND !in run.state)
      ensures tmpfs.Ok? && usable ==> TmpfsGiven(run.contract, tmpfs.value)
      ensures tmpfs.Ok? ==> TmpfsSettled(run, Last(history), tmpfs.value, usable)
      ensures tmpfs.Ok? && tmpfs.value.Some? && reliable ==>
                TmpfsFits(run, run.state[CGROUP_BACKEND].resources, tmpfs.value.value)
      ensures tmpfs.Err? ==> !reliable
    {
      if CGROUP_BACKEND !in run.state {
        assert forall name :: IsRequired(run.contract, name) ==> InRecord(run.contract, run.state, name);
        return Ok(None), true;
      }
      var names := run.state[CGROUP_BACKEND].resources;
      var made := TmpfsSetup(run, names, reliable);
      if made.Ok? {
        forall name | NeedsTmpfs(run.contract, name)
          ensures made.value.Some?
        {
          TmpfsCovers(run, made.value, name);
        }
        return made, true;
      }
      if QUOTA_BACKEND in run.state {
        OneProvider(run);
      }
      var affected := ScratchNames(run.contract, names);
      if affected == [] {
        assert false;
        return Err("broker-row-invalid"), false;
      }
      RecordedNames(run, CGROUP_BACKEND);
      var receipt := Record(run.receipt, CGROUP_BACKEND, affected, Attach, FailureStatus(run.contract), made.code,
                            run.resources);
      FailuresLogged(run.receipt.events, run.contract, CGROUP_BACKEND, affected, Attach, made.code);
      assert AnyRequired(run.contract, affected) <==> exists name :: name in names && NeedsScratch(run.contract, name);
      var saved := Save(receipt, run.state);
      if saved.Err? {
        return Err(saved.code), false;
      }
      forall name | NeedsTmpfs(run.contract, name)
        ensures AnyRequired(run.contract, affected)
      {
        assert InRecord(run.contract, run.state, name);
      }
      return Ok(None), !AnyRequired(run.contract, affected);
    }

    /** The quota half of `prepare_worker_setup`. A quota that cannot be used is given up at once. */
    method SetUpQuota(run: Row) returns (quota: Result<bool>, usable: bool)
      requires Active(history) && RowOk(run) && Held(run.contract, run.state) && SameRequest(run, Last(history))
                && RowOk(Last(history))
      requires Last(history).state == run.state && Last(history).receipt.applied == run.receipt.applied
      requires QUOTA_BACKEND in run.state ==> Undisturbed(run, Last(history))
      modifies `history
      ensures Active(history) && old(history) <= history && SameRequest(old(Last(history)), Last(history))
      ensures quota.Ok? ==> Last(history).receipt.applied == run.receipt.applied
      ensures quota.Ok? ==> Last(history).state == if quota.value then run.state else run.state - {QUOTA_BACKEND}
      ensures quota.Ok? && usable && !quota.value ==> NoQuotaNeeded(run.contract)
      ensures quota.Ok? ==> QuotaSettled(run, old(Last(history)), Last(history), quota.value, usable)
      ensures quota.Err? ==> !reliable
    {
      if QUOTA_BACKEND !in run.state {
        assert forall name :: IsRequired(run.contract, name) ==> InRecord(run.contract, run.state, name);
        assert run.state - {QUOTA_BACKEND} == run.state;
        return Ok(false), true;
      }
      var path := BackendCommand();
      if path.Ok? {
        return Ok(true), true;
      }
      var abandoned := AbandonQuota(run, path.code);
      if abandoned.Err? {
        return Err(abandoned.code), false;
      }
      return Ok(false), abandoned.value;
    }

    /** Give up a quota that cannot be used. */
    method AbandonQuota(run: Row, code: string) returns (usable: Result<bool>)
      requires Active(history) && RowOk(run) && Held(run.contract, run.state) && QUOTA_BACKEND in run.state
                && Undisturbed(run, Last(history))
      requires RowOk(Last(history)) && CodeValid(code)
      modifies `history
      ensures Active(history) && old(history) <= history && SameRequest(old(Last(history)), Last(history))
      ensures usable.Ok? ==>
                Last(history).receipt.applied == run.receipt.applied
                && Last(history).state == run.state - {QUOTA_BACKEND}
      ensures usable == Ok(true) ==> NoQuotaNeeded(run.contract)
      ensures usable.Ok? ==> QuotaSettled(run, run, Last(history), false, usable.value)
      ensures usable.Err? ==> !reliable
    {
      var requiredFailure := AnyRequired(run.contract, run.state[QUOTA_BACKEND].resources);
      var receipt := RefuseQuota(run, code);
      var cleanupFailed := CleanupFailed(receipt, QUOTA_BACKEND);
      var state := run.state - {QUOTA_BACKEND};
      RestIsOk(run.contract, run.state);
      var _ :- Save(receipt, state);
      forall name | NeedsQuota(run.contract, name)
        ensures requiredFailure
      {
        assert InRecord(run.contract, run.state, name);
      }
      return Ok(!requiredFailure && !cleanupFailed);
    }

    /** `prepare_worker_setup`. */
    method PrepareWorkerSetup(run: Row) returns (setup: Result<WorkerSetup>, usable: bool, ghost middle: Option<Row>)
      requires Active(history) && Undisturbed(run, Last(history)) && RowOk(run) && Held(run.contract, run.state)
                && Fresh(run.state)
      modifies `history
      ensures Active(history) && old(history) <= history && SameRequest(old(Last(history)), Last(history))
      ensures setup.Ok? && usable ==>
                Held(Last(history).contract, Last(history).state) && Fresh(Last(history).state)
                    && Covered(Last(history).contract, setup.value)
      // What could not be set up is on record, and ends the start only if it was required or not cleaned up.
      ensures setup.Ok? ==> SetupSettled(run, middle, Last(history), setup.value, usable, reliable)
      ensures setup.Err? ==> !reliable
    {
      var tmpfs: Result<Option<TmpfsSpace>>;
      tmpfs, usable := SetUpTmpfs(run);
      middle := None;
      if tmpfs.Err? {
        setup := Err(tmpfs.code);
      } else if usable {
        LastIsOk(history);
        setup, usable, middle := SetUpRest(run, tmpfs.value);
      } else {
        setup := Ok(WorkerSetup(tmpfs.value, false));
      }
    }

    /** The quota half, after a tmpfs half that may be used. */
    method SetUpRest(run: Row, tmpfs: Option<TmpfsSpace>)
      returns (setup: Result<WorkerSetup>, usable: bool, ghost middle: Option<Row>)
      requires Active(history) && RowOk(run) && Held(run.contract, run.state) && Fresh(run.state)
      requires SameRequest(run, Last(history)) && Last(history).state == run.state && RowOk(Last(history))
      requires Last(history).receipt.applied == run.receipt.applied
      requires QUOTA_BACKEND in run.state ==> Undisturbed(run, Last(history))
      requires TmpfsGiven(run.contract, tmpfs)
      requires TmpfsSettled(run, Last(history), tmpfs, true)
      requires tmpfs.Some? && reliable ==> TmpfsFits(run, run.state[CGROUP_BACKEND].resources, tmpfs.value)
      modifies `history
      ensures Active(history) && old(history) <= history && SameRequest(old(Last(history)), Last(history))
      ensures setup.Ok? && usable ==>
                Held(Last(history).contract, Last(history).state) && Fresh(Last(history).state)
                    && Covered(Last(history).contract, setup.value)
      ensures setup.Ok? ==> SetupSettled(run, middle, Last(history), setup.value, usable, reliable)
      ensures setup.Ok? ==> setup.value.tmpfs == tmpfs
      ensures setup.Err? ==> !reliable
    {
      middle := Some(Last(history));
      var quota: Result<bool>;
      quota, usable := SetUpQuota(run);
      if quota.Ok? {
        SettledSetup(run, middle.value, Last(history), tmpfs, quota.value, usable, reliable);
      }
      setup := if quota.Ok? then Ok(WorkerSetup(tmpfs, quota.value)) else Err(quota.code);
    }

    /** `cancel_resources`, for the row as it was read, or as the caller is about to save it. */
    method CancelResources(run: Row) returns (cancelled: Result<bool>)
      requires Active(history) && RowOk(run) && SameRun(run, Last(history))
      requires Grown(Last(history).receipt, run.receipt, run.resources)
      modifies `history
      ensures Active(history) && old(history) <= history && SameRequest(old(Last(history)), Last(history))
      ensures cancelled.Ok? ==> (cancelled.value <==> run.state != map[])
      ensures cancelled.Ok? && SomeUncancelled(run.state) ==>
                Last(history).state == CancelledStates(run.state)
                    && Last(history).receipt.applied == run.receipt.applied
                && run.receipt.events <= Last(history).receipt.events
                && AllCancelAsked(run.receipt, Last(history).receipt, run.state)
      ensures cancelled.Err? ==> !reliable
      ensures cancelled.Ok? && !SomeUncancelled(run.state) ==> Undisturbed(old(Last(history)), Last(history))
    {
      var receipt: Receipt, state: States, changed: bool;
      receipt, state, changed := CancelAll(run, run.receipt);
      GrownIsTransitive(Last(history).receipt, run.receipt, receipt, run.resources);
      CancelledIsOk(run.contract, run.state);
      if changed {
        var _ :- Save(receipt, state);
      }
      return Ok(state != map[]);
    }

    /** `capture_resource_usage`. */
    method CaptureUsage(run: Row, answers: Answers) returns (captured: Result<()>)
      requires Active(history) && Undisturbed(run, Last(history)) && RowOk(run)
      modifies `history
      ensures Active(history) && old(history) <= history && SameRequest(old(Last(history)), Last(history))
      ensures captured.Ok? ==> Last(history).state == run.state && Last(history).receipt.applied == run.receipt.applied
      // What both backends answered is in the receipt.
      ensures captured.Ok? ==>
                exists first ::
                  && UsageAdded(run.receipt, first, run.state, CGROUP_BACKEND, answers.cgroup)
                  && UsageAdded(first, Last(history).receipt, run.state, QUOTA_BACKEND, answers.quota)
      ensures captured.Err? ==> !reliable || Misreported(run, answers)
    {
      var first :- MeasureHeld(run, run.receipt, CGROUP_BACKEND, answers.cgroup);
      var second :- MeasureHeld(run, first, QUOTA_BACKEND, answers.quota);
      GrownIsTransitive(run.receipt, first, second, run.resources);
      if second != run.receipt {
        var _ :- Save(second, run.state);
      }
      return Ok(());
    }

    /** `attach_resources`. A failed attachment gives up everything that was held. */
    method AttachResources(run: Row) returns (attached: Result<bool>, ghost cgroupFailed: bool, ghost quotaFailed: bool)
      requires Active(history) && Undisturbed(run, Last(history)) && RowOk(run)
      requires Held(run.contract, run.state) && Fresh(run.state)
      modifies `history
      ensures Active(history) && old(history) <= history && SameRequest(old(Last(history)), Last(history))
      ensures attached == Ok(true) ==> Attached(run.contract, Last(history).receipt.applied)
      ensures attached == Ok(true) ==> Last(history).state == run.state || Last(history).state == map[]
      ensures attached == Ok(false) ==>
                Last(history).state == map[] && Explained(run.contract, Last(history).receipt.events)
      // It fails exactly when a backend fails that holds something required, and every answer is on record.
      ensures attached.Ok? ==> (attached.value <==> !RequiredFailed(run, cgroupFailed, quotaFailed))
      ensures attached.Ok? ==> AttachmentSettled(run, Last(history), cgroupFailed, quotaFailed)
      ensures attached.Err? ==> !reliable
    {
      var receipt: Receipt, cgroup: bool, quota: bool;
      receipt, cgroup, quota := AttachAll(run);
      cgroupFailed, quotaFailed := cgroup, quota;
      if !cgroup && !quota {
        var saved := Save(receipt, run.state);
        attached := if saved.Ok? then Ok(true) else Err(saved.code);
      } else {
        attached := RefuseAttachment(run, receipt, cgroup, quota);
      }
    }

    /** Give up an attachment that failed, which is fatal if something required did. */
    method RefuseAttachment(run: Row, receipt: Receipt, cgroup: bool, quota: bool) returns (attached: Result<bool>)
      requires Active(history) && Undisturbed(run, Last(history)) && RowOk(run)
      requires Grown(run.receipt, receipt, run.resources) && run.state != map[] && Fresh(run.state)
      requires BothAttached(run, receipt, cgroup, quota) && (cgroup || quota)
      requires RequiredFailed(run, cgroup, quota) ==> Explained(run.contract, receipt.events)
      modifies `history
      ensures Active(history) && old(history) <= history && SameRequest(old(Last(history)), Last(history))
      ensures attached.Ok? ==> Last(history).state == map[] && Last(history).receipt.applied == receipt.applied
      ensures attached == Ok(false) ==> Explained(run.contract, Last(history).receipt.events)
      ensures attached.Ok? ==> (attached.value <==> !RequiredFailed(run, cgroup, quota))
      ensures attached.Ok? ==> AttachmentSettled(run, Last(history), cgroup, quota)
      ensures attached.Err? ==> !reliable
    {
      var requiredFailure := (cgroup && AnyRequired(run.contract, run.state[CGROUP_BACKEND].resources))
          || (quota && AnyRequired(run.contract, run.state[QUOTA_BACKEND].resources));
      var abandoned := AbandonAttachment(run, receipt);
      attached := if abandoned.Ok? then Ok(!requiredFailure) else Err(abandoned.code);
      if abandoned.Ok? && requiredFailure {
        ExplainedStays(run.contract, receipt.events, Last(history).receipt.events);
      }
    }

    /** Kill the worker through what it was attached to, and give everything up. */
    method AbandonAttachment(run: Row, receipt: Receipt) returns (abandoned: Result<()>)
      requires Active(history) && Undisturbed(run, Last(history)) && RowOk(run)
      requires Grown(run.receipt, receipt, run.resources) && run.state != map[] && Fresh(run.state)
      modifies `history
      ensures Active(history) && old(history) <= history && SameRequest(old(Last(history)), Last(history))
      ensures abandoned.Ok? ==> Last(history).state == map[] && Last(history).receipt.applied == receipt.applied
      ensures abandoned.Ok? ==> receipt.events <= Last(history).receipt.events
      ensures abandoned.Ok? ==> GivenUpAfter(receipt, Last(history).receipt, run.state)
      ensures abandoned.Err? ==> !reliable
    {
      var _ :- AskToStop(run, receipt);
      ghost var cancelled := Last(history);
      abandoned := GiveUp();
      if abandoned.Ok? {
        SameNamesCleanedUp(cancelled.receipt, Last(history).receipt, run.state, cancelled.state);
      }
    }

    /** Cancel everything that a failed attachment holds, with its failures on record. */
    method AskToStop(run: Row, receipt: Receipt) returns (asked: Result<()>)
      requires Active(history) && Undisturbed(run, Last(history)) && RowOk(run)
      requires Grown(run.receipt, receipt, run.resources) && run.state != map[] && Fresh(run.state)
      modifies `history
      ensures Active(history) && old(history) <= history && SameRequest(old(Last(history)), Last(history))
      ensures asked.Ok? ==>
                Last(history).state == CancelledStates(run.state) && Last(history).receipt.applied == receipt.applied
                && receipt.events <= Last(history).receipt.events
                && AllCancelAsked(receipt, Last(history).receipt, run.state)
      ensures asked.Err? ==> !reliable
    {
      var temporary := run.(receipt := receipt);
      ReceiptReplaced(run, receipt);
      ghost var backend :| backend in run.state;
      assert SomeUncancelled(temporary.state) by { assert !run.state[backend].cancelled; }
      var cancelled := CancelResources(temporary);
      asked := if cancelled.Ok? then Ok(()) else Err(cancelled.code);
    }

    /** Read the row again and clean up everything it holds. */
    method GiveUp() returns (done: Result<()>)
      requires Active(history)
      modifies `history
      ensures Active(history) && old(history) <= history && SameRequest(old(Last(history)), Last(history))
      ensures done.Ok? ==>
                Last(history).state == map[] && Last(history).receipt.applied == old(Last(history)).receipt.applied
      ensures done.Ok? ==> old(Last(history)).receipt.events <= Last(history).receipt.events
      ensures done.Err? ==> !reliable
      ensures done.Ok? ==> AllCleanedUp(old(Last(history)).receipt, Last(history).receipt, old(Last(history)).state)
    {
      var refreshed :- Load();
      var receipt: Receipt, state: States;
      receipt, state := CleanUp(refreshed, refreshed.receipt, refreshed.state);
      done := Save(receipt, state);
    }

    /** `finish_and_cleanup_resources`: on success nothing is held any more. */
    method FinishAndCleanup(run: Row, answers: Answers) returns (done: Result<()>)
      requires Active(history) && Undisturbed(run, Last(history)) && RowOk(run) && CodesValid(answers)
      modifies `history
      ensures Active(history) && old(history) <= history && SameRequest(old(Last(history)), Last(history))
      ensures done.Ok? ==> Last(history).state == map[] && Last(history).receipt.applied == run.receipt.applied
      // Each backend's last measurement and finish events are in the receipt, and then its cleanup events.
      ensures done.Ok? ==> FinishedAndCleaned(run, answers, Last(history).receipt)
      ensures done.Err? ==> !reliable || Misreported(run, answers)
    {
      var first :- FinishHeld(run, run.receipt, CGROUP_BACKEND, answers.cgroup);
      var second :- FinishHeld(run, first, QUOTA_BACKEND, answers.quota);
      GrownIsTransitive(run.receipt, first, second, run.resources);
      var finished := FinishedStates(run.state);
      CancelledIsOk(run.contract, run.state);
      var _ :- Save(second, finished);
      done := GiveUp();
    }

    /** `record_worker_setup`: when it returns, everything required is applied. */
    method RecordWorkerSetup(run: Row, setup: WorkerSetup) returns (recorded: Result<()>)
      requires Active(history) && Undisturbed(run, Last(history)) && RowOk(run)
      requires Covered(run.contract, setup) && Attached(run.contract, run.receipt.applied)
                && OnlyTwoBackends(run.contract)
      requires Held(run.contract, run.state) || run.state == map[]
      modifies `history
      ensures Active(history) && old(history) <= history && SameRequest(old(Last(history)), Last(history))
      ensures recorded.Ok? ==>
                RequiredApplied(run.contract, Last(history).receipt.applied) && Last(history).state == run.state
      // Exactly the reported space is applied, each with one event; a report that does not fit is an error.
      ensures recorded.Ok? ==> SetupFits(run, setup) && SetupAdded(run, Last(history).receipt, setup)
      ensures recorded.Ok? && setup.tmpfs.None? && !setup.quota ==> Undisturbed(old(Last(history)), Last(history))
      ensures recorded.Err? ==> !reliable || !SetupFits(run, setup)
    {
      var receipt :- ApplySetup(run, setup);
      EverythingApplied(run, setup, receipt);
      if setup.tmpfs.None? && !setup.quota {
        return Ok(());
      }
      var _ :- Save(receipt, run.state);
      return Ok(());
    }

    /** `record_worker_setup_failure`: a failure that is not fatal leaves everything required applied. */
    method RecordWorkerSetupFailure(run: Row, code: string) returns (fatal: Result<bool>)
      requires Active(history) && Undisturbed(run, Last(history)) && RowOk(run)
      modifies `history
      ensures Active(history) && old(history) <= history && SameRequest(old(Last(history)), Last(history))
      ensures fatal.Ok? ==> Last(history).state == run.state
      ensures fatal == Ok(false) && Attached(run.contract, run.receipt.applied)
                && (Held(run.contract, run.state) || run.state == map[]) ==>
                RequiredApplied(run.contract, Last(history).receipt.applied)
      // The failure of everything that it concerns is on record; one that concerns nothing is an error.
      ensures fatal.Ok? ==>
                CodeValid(code) && SetupConcerns(run, code) && SetupRefused(run, Last(history).receipt, code)
      ensures fatal.Ok? ==> (fatal.value <==> SetupFatal(run, code))
      ensures fatal.Err? ==> !reliable || !CodeValid(code) || !SetupConcerns(run, code)
    {
      if !CodeValid(code) {
        return Err("broker-row-invalid");
      }
      var receipt: Receipt, recorded: bool, requiredFailure: bool;
      receipt, recorded, requiredFailure := RefuseSetup(run, code);
      if !recorded {
        return Err("broker-row-invalid");
      }
      var _ :- Save(receipt, run.state);
      if !requiredFailure && Attached(run.contract, run.receipt.applied)
          && (Held(run.contract, run.state) || run.state == map[]) {
        NothingRequiredRefused(run, Last(history).receipt, code);
      }
      return Ok(requiredFailure);
    }
  }

  /** Without required scratch and without a quota, attachment applies all that is required. */
  lemma NothingRequiredRefused(row: Row, after: Receipt, code: string)
    requires RowOk(row) && Attached(row.contract, row.receipt.applied)
    requires Held(row.contract, row.state) || row.state == map[]
    requires SetupConcerns(row, code) && !SetupFatal(row, code) && SetupRefused(row, after, code)
    ensures RequiredApplied(row.contract, after.applied)
  {
    forall name | IsRequired(row.contract, name)
      ensures name in after.applied
    {
      assert InRecord(row.contract, row.state, name);
      RecordedNames(row, row.contract[name].backend.value);
      assert !NeedsScratch(row.contract, name);
      assert NeedsAttachment(row.contract, name);
    }
  }
}
