/** The durable row of one run: who may change it, how, and what holds over its whole history, through
    any number of broker crashes and restarts. */
module Runs {

  import opened Outcomes
  import opened Resources
  import opened Receipts

  const BROKER_STOPPED := "broker-stopped"

  datatype RunKind = Check | Full | Merge | Land

  datatype RunStatus = Queued | Running | Passed | Broken | Cancelled | Interrupted

  datatype RunPhase = Waiting | Working | Preflight | Gating | Publishing | Complete

  datatype Worker = Worker(pid: nat, token: string)

  /** `names` are the requested resources in order; `failure` is the failure reason. */
  datatype Row = Row(kind: RunKind, names: seq<string>, resources: map<string, nat>, contract: map<string, Binding>,
                     status: RunStatus, phase: RunPhase, cancelRequested: bool, exit: Option<int>,
                         failure: Option<string>,
                     reported: Option<int>, worker: Option<Worker>, receipt: Receipt, state: map<string, BackendState>)

  predicate Live(row: Row) {
    row.status.Queued? || row.status.Running?
  }

  // ---------------------------------------------------------------- outcomes

  datatype Outcome = Outcome(status: RunStatus, exit: int, failure: Option<string>)

  /** `requested_stop_outcome`. */
  function RequestedStopOutcome(row: Row): Outcome {
    if row.failure == Some(BROKER_STOPPED) then Outcome(Interrupted, 125, Some(BROKER_STOPPED))
        else Outcome(Cancelled, 130, None)
  }

  /** A stop that the broker asked for interrupts with status 125 and claims no verdict; any other one cancels with
      130. */
  lemma StopOutcomes(row: Row, proposed: Outcome)
    ensures FinishOutcome(row, proposed) ==
            if !row.cancelRequested then proposed
            else if row.failure == Some("broker-stopped") then Outcome(Interrupted, 125, Some("broker-stopped"))
            else Outcome(Cancelled, 130, None)
  {
  }

  function OutcomeOf(row: Row): Outcome
    requires row.exit.Some?
  {
    Outcome(row.status, row.exit.value, row.failure)
  }

  /** An outcome the broker may propose when no stop was requested. */
  predicate Proposable(outcome: Outcome) {
    && outcome.status in {Passed, Broken, Interrupted, Cancelled}
    && outcome.failure != Some(BROKER_STOPPED)
    && (outcome.status.Passed? <==> outcome.exit == 0)
    && (outcome.status.Passed? ==> outcome.failure.None?)
  }

  /** Publication decides the result: no stop request is accepted any more. */
  predicate Authoritative(row: Row) {
    row.kind.Merge? || (row.kind.Land? && row.phase.Publishing?)
  }

  // ---------------------------------------------------------------- row invariant

  /** What a backend holds is enforced by that backend, and a backend only prepares a complete policy. */
  ghost predicate StateOk(contract: map<string, Binding>, state: map<string, BackendState>) {
    forall backend :: backend in state ==>
      && backend in {CGROUP_BACKEND, QUOTA_BACKEND}
      && PolicyComplete(backend, contract, state[backend].resources)
      && EnforcedBy(contract, backend, state[backend].resources)
  }

  /** Names that this backend enforces for the run. */
  ghost predicate EnforcedBy(contract: map<string, Binding>, backend: string, names: seq<string>) {
    forall name :: name in names ==>
        name in contract && contract[name].Enforced() && contract[name].backend == Some(backend)
  }

  predicate HoldsKind(contract: map<string, Binding>, names: seq<string>, kind: Kind) {
    exists name :: name in names && name in contract && contract[name].kind == kind
  }

  /** The control-group backend prepares tmpfs space and tmpfs inodes together, and the quota backend
      prepares storage and inodes. */
  predicate PolicyComplete(backend: string, contract: map<string, Binding>, names: seq<string>) {
    if backend == CGROUP_BACKEND then
      HoldsKind(contract, names, Tmpfs) <==> HoldsKind(contract, names, Inodes)
    else
      HoldsKind(contract, names, Storage) && HoldsKind(contract, names, Inodes)
  }

  ghost predicate RequestOk(row: Row) {
    && (forall name :: name in row.names <==> name in row.resources)
    && row.contract.Keys == row.resources.Keys
    && (forall name :: name in row.contract ==> ValidBinding(row.contract[name]))
    && OneScratchProvider(row.contract)
  }

  ghost predicate RowOk(row: Row) {
    && RequestOk(row) && StateOk(row.contract, row.state)
    && ReceiptValid(row.receipt, row.resources)
    && (!row.status.Running? ==> row.state == map[])
    && (row.status.Queued? ==> row.phase.Waiting? && !row.cancelRequested && row.failure.None?)
    && (row.status.Running? && Authoritative(row) ==> !row.cancelRequested)
    && (row.status.Running? && !row.cancelRequested ==> row.failure.None?)
    && (row.status.Running? ==> row.failure.None? || row.failure == Some(BROKER_STOPPED))
    && (!Live(row) ==> row.exit.Some?)
  }

  /** The row that a submission inserts. */
  function NewRow(kind: RunKind, names: seq<string>, resources: map<string, nat>, bindings: map<string, Binding>): Row {
    Row(kind, names, resources, ContractOf(resources.Keys, bindings), Queued, Waiting, false, None, None, None, None,
        InitialReceipt(resources), map[])
  }

  /** An accepted submission is a row that every later step may rely on. */
  lemma NewRowOk(kind: RunKind, names: seq<string>, resources: map<string, nat>, bindings: map<string, Binding>)
    requires forall name :: name in names <==> name in resources
    requires forall name :: name in resources ==> resources[name] > 0
    requires forall name :: name in bindings ==> ValidBinding(bindings[name])
    ensures RowOk(NewRow(kind, names, resources, bindings)) <==>
              OneScratchProvider(ContractOf(resources.Keys, bindings))
  {
  }

  // ---------------------------------------------------------------- steps

  /** Saved events only extend the saved events, what was requested is fixed, and no peak falls. */
  ghost predicate Extends(before: Receipt, after: Receipt) {
    && after.requested == before.requested
    && before.events <= after.events
    && forall name :: name in before.peak ==> name in after.peak && before.peak[name] <= after.peak[name]
  }

  /** What clients do to a row: a caller cancels it, the landing worker reports its phase or its result.
      A queued run is cancelled at once; a running one is only asked to stop, and not while publication
      decides; publishing begins only without a request to stop, and is not left again. */
  ghost predicate ClientStep(before: Row, after: Row) {
    match before.status
    case Queued =>
      after == before || (after == before.(status := Cancelled, phase := Complete, exit := Some(130),
                                           cancelRequested := after.cancelRequested, failure := after.failure)
                          && after.failure != Some(BROKER_STOPPED))
    case Running =>
      && after == before.(cancelRequested := after.cancelRequested, phase := after.phase, reported := after.reported)
      && (before.cancelRequested ==> after.cancelRequested && after.phase == before.phase)
      && (Authoritative(before) ==> !after.cancelRequested)
      && (before.phase.Publishing? ==> after.phase.Publishing?)
      && (after.phase != before.phase ==> before.kind.Land? && !before.cancelRequested && !after.cancelRequested)
      && (before.reported.Some? ==> after.reported == before.reported)
    case _ => after == before
  }

  ghost predicate AdmitStep(before: Row, after: Row) {
    && before.status.Queued?
    && after == before.(status := Running, phase := if before.kind.Land? then Preflight else Working)
  }

  ghost predicate IdentityStep(before: Row, after: Row) {
    before.status.Running? && before.worker.None? && after == before.(worker := after.worker)
  }

  /** `save_resource_records`. */
  ghost predicate SaveStep(before: Row, after: Row) {
    && before.status.Running?
    && after == before.(receipt := after.receipt, state := after.state)
    && StateOk(after.contract, after.state) && ReceiptValid(after.receipt, after.resources)
       && Extends(before.receipt, after.receipt)
  }

  /** `request_interruption`, as far as this row is concerned. */
  function Interruption(row: Row): Row {
    if row.status.Running? && !row.cancelRequested && !Authoritative(row) then
      row.(cancelRequested := true, failure := Some(BROKER_STOPPED))
    else row
  }

  function Ended(row: Row, outcome: Outcome): Row {
    row.(status := outcome.status, phase := Complete, exit := Some(outcome.exit), failure := outcome.failure)
  }

  /** `finish_run`: the request to stop is read again in the transaction that ends the run. */
  function FinishOutcome(row: Row, proposed: Outcome): Outcome {
    if row.cancelRequested then RequestedStopOutcome(row) else proposed
  }

  ghost predicate FinishStep(before: Row, after: Row) {
    && before.status.Running? && before.state == map[]
    && exists proposed :: Proposable(proposed) && after == Ended(before, FinishOutcome(before, proposed))
  }

  ghost predicate Step(before: Row, after: Row) {
    || ClientStep(before, after)
    || AdmitStep(before, after)
    || IdentityStep(before, after)
    || SaveStep(before, after)
    || after == Interruption(before)
    || FinishStep(before, after)
  }

  lemma ClientKeepsRowOk(before: Row, after: Row)
    requires RowOk(before) && ClientStep(before, after)
    ensures RowOk(after)
  {
    assert StateOk(after.contract, after.state);
  }

  lemma BrokerKeepsRowOk(before: Row, after: Row)
    requires RowOk(before)
    requires AdmitStep(before, after) || IdentityStep(before, after) || after == Interruption(before)
              || FinishStep(before, after)
    ensures RowOk(after)
  {
    assert StateOk(after.contract, after.state);
  }

  lemma SaveKeepsRowOk(before: Row, after: Row)
    requires RowOk(before) && SaveStep(before, after)
    ensures RowOk(after)
  {
  }

  lemma StepKeepsRowOk(before: Row, after: Row)
    requires RowOk(before) && Step(before, after)
    ensures RowOk(after)
  {
    if ClientStep(before, after) {
      ClientKeepsRowOk(before, after);
    } else if SaveStep(before, after) {
      SaveKeepsRowOk(before, after);
    } else {
      BrokerKeepsRowOk(before, after);
    }
  }

  // ---------------------------------------------------------------- histories

  ghost predicate StepAt(history: seq<Row>, i: nat)
    requires i + 1 < |history|
  {
    Step(history[i], history[i + 1])
  }

  /** A crash leaves no trace in the row, so a history covers any number of brokers. */
  ghost predicate HistoryOk(history: seq<Row>) {
    && history != [] && RowOk(history[0])
    && forall i :: 0 <= i < |history| - 1 ==> StepAt(history, i)
  }

  lemma {:induction false} RowAlwaysOk(history: seq<Row>, i: nat)
    requires HistoryOk(history) && i < |history|
    ensures RowOk(history[i])
  {
    if i > 0 {
      RowAlwaysOk(history, i - 1);
      assert StepAt(history, i - 1);
      StepKeepsRowOk(history[i - 1], history[i]);
    }
  }

  lemma HistoryGrows(history: seq<Row>, row: Row)
    requires HistoryOk(history) && Step(history[|history| - 1], row)
    ensures HistoryOk(history + [row]) && RowOk(row)
  {
    var more := history + [row];
    forall i | 0 <= i < |more| - 1
      ensures StepAt(more, i)
    {
      if i < |history| - 1 {
        assert StepAt(history, i);
      }
    }
    RowAlwaysOk(more, |history|);
  }

  lemma StepExtends(before: Row, after: Row)
    requires RowOk(before) && Step(before, after)
    ensures Extends(before.receipt, after.receipt) && after.resources == before.resources
  {
  }

  lemma {:induction false} ReceiptGrows(history: seq<Row>, i: nat, j: nat)
    requires HistoryOk(history) && i <= j < |history|
    ensures Extends(history[i].receipt, history[j].receipt) && history[j].resources == history[i].resources
    decreases j
  {
    if i < j {
      ReceiptGrows(history, i, j - 1);
      ExtendsAt(history, j - 1);
      ExtendsIsTransitive(history[i].receipt, history[j - 1].receipt, history[j].receipt);
    }
  }

  /** Over any history of a run the receipt stays valid, requests the same, keeps every event and lets no peak fall. */
  lemma ReceiptHistory(history: seq<Row>, i: nat, j: nat)
    requires HistoryOk(history) && i <= j < |history|
    ensures Extends(history[i].receipt, history[j].receipt)
    ensures ReceiptValid(history[j].receipt, history[i].resources)
  {
    ReceiptGrows(history, i, j);
    RowAlwaysOk(history, j);
  }

  lemma ExtendsAt(history: seq<Row>, i: nat)
    requires HistoryOk(history) && i + 1 < |history|
    ensures Extends(history[i].receipt, history[i + 1].receipt) && history[i + 1].resources == history[i].resources
  {
    RowAlwaysOk(history, i);
    assert StepAt(history, i);
    StepExtends(history[i], history[i + 1]);
  }

  lemma ExtendsIsTransitive(a: Receipt, b: Receipt, c: Receipt)
    requires Extends(a, b) && Extends(b, c)
    ensures Extends(a, c)
  {
  }

  /** An ended run holds no backend state, and its row is never written again. */
  lemma {:induction false} EndedIsFinal(history: seq<Row>, i: nat, j: nat)
    requires HistoryOk(history) && i <= j < |history| && !Live(history[i])
    ensures history[j] == history[i] && history[j].state == map[]
    decreases j
  {
    RowAlwaysOk(history, i);
    if i < j {
      EndedIsFinal(history, i, j - 1);
      assert StepAt(history, j - 1);
    }
  }

  ghost predicate StopDecided(row: Row, outcome: Outcome) {
    if row.status.Running? then row.cancelRequested && RequestedStopOutcome(row) == outcome
    else !Live(row) && OutcomeIs(row, outcome)
  }

  ghost predicate OutcomeIs(row: Row, outcome: Outcome) {
    row.exit.Some? && OutcomeOf(row) == outcome
  }

  lemma StopStaysDecided(before: Row, after: Row, outcome: Outcome)
    requires RowOk(before) && Step(before, after) && StopDecided(before, outcome)
    ensures StopDecided(after, outcome)
  {
  }

  /** From the moment a stop is requested the outcome is fixed: whatever else happens, the run ends as
      that request says. */
  lemma {:induction false} StopDecidesTheOutcome(history: seq<Row>, i: nat, j: nat)
    requires HistoryOk(history) && i <= j < |history|
    requires history[i].status.Running? && history[i].cancelRequested
    ensures StopDecided(history[j], RequestedStopOutcome(history[i]))
    decreases j
  {
    if i < j {
      StopDecidesTheOutcome(history, i, j - 1);
      RowAlwaysOk(history, j - 1);
      assert StepAt(history, j - 1);
      StopStaysDecided(history[j - 1], history[j], RequestedStopOutcome(history[i]));
    }
  }

  ghost predicate Unstoppable(row: Row) {
    !row.status.Queued? && !row.cancelRequested && row.failure != Some(BROKER_STOPPED)
    && (row.status.Running? ==> Authoritative(row))
  }

  lemma UnstoppableStays(before: Row, after: Row)
    requires RowOk(before) && Step(before, after) && Unstoppable(before)
    ensures Unstoppable(after)
  {
  }

  /** Once publication decides, neither a caller nor a stopping broker ends the run. */
  lemma {:induction false} PublicationDecides(history: seq<Row>, i: nat, j: nat)
    requires HistoryOk(history) && i <= j < |history|
    requires history[i].status.Running? && Authoritative(history[i])
    ensures !history[j].cancelRequested && history[j].failure != Some(BROKER_STOPPED)
    ensures Unstoppable(history[j])
    decreases j
  {
    if i < j {
      PublicationDecides(history, i, j - 1);
      RowAlwaysOk(history, j - 1);
      assert StepAt(history, j - 1);
      UnstoppableStays(history[j - 1], history[j]);
    } else {
      RowAlwaysOk(history, i);
      DecidedIsUnstoppable(history[i]);
    }
  }

  lemma DecidedIsUnstoppable(row: Row)
    requires RowOk(row) && row.status.Running? && Authoritative(row)
    ensures Unstoppable(row)
  {
  }
}
