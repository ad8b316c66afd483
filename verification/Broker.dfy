/** How the broker takes one run from admission to its end. Every exit of `start_worker` either released a
    worker with everything required applied, or ended the run with nothing held. */
module Broker {

  import opened Outcomes
  import Forge
  import Processes
  import opened Resources
  import opened Receipts
  import opened Runs
  import opened ReceiptLog
  import opened Lifecycle

  const ENFORCEMENT_FAILED := Outcome(Broken, 125, Some("resource-enforcement-failed"))

  ghost predicate Ended(history: seq<Row>) {
    HistoryOk(history) && !Live(Last(history))
  }

  // ---------------------------------------------------------------- ending a run

  /** The last step ended the run, which held nothing, with the proposed outcome or as the requested stop; up to
      that step only clients had acted on `start`. */
  ghost predicate EndedAs(start: Row, history: seq<Row>, proposed: Outcome) {
    && |history| >= 2
    && var before := history[|history| - 2];
       && before.status.Running? && before.state == map[] && Undisturbed(start, before)
       && EndsSo(before, Last(history), proposed)
  }

  /** A run that was asked to stop is interrupted with status 125 when the broker asked, and cancelled with status 130
      when somebody else did; any other run ends as proposed. */
  ghost predicate EndsSo(before: Row, after: Row, proposed: Outcome) {
    && after == before.(status := after.status, phase := Complete, exit := after.exit, failure := after.failure)
    && if !before.cancelRequested then
         after.status == proposed.status && after.exit == Some(proposed.exit) && after.failure == proposed.failure
       else if before.failure == Some("broker-stopped") then
         after.status.Interrupted? && after.exit == Some(125) && after.failure == Some("broker-stopped")
       else
         after.status.Cancelled? && after.exit == Some(130) && after.failure.None?
  }

  /** From this row on the run was ended, which held nothing then, with the proposed outcome or as the requested
      stop. */
  ghost predicate EndedWith(history: seq<Row>, from: nat, proposed: Outcome) {
    && from + 2 <= |history| && !Live(Last(history))
    && var before := history[|history| - 2];
       before.status.Running? && before.state == map[] && EndsSo(before, Last(history), proposed)
  }

  /** A stop was requested by the time the run ended. */
  ghost predicate StoppedAtEnd(history: seq<Row>) {
    |history| >= 2 && history[|history| - 2].cancelRequested
  }

  /** From this row on everything that was held had been asked to cancel at some time. */
  ghost predicate CancelledFirst(history: seq<Row>, from: nat, held: States) {
    exists i :: from <= i < |history| && AllMarked(held, history[i].state)
  }

  ghost predicate AllMarked(held: States, state: States) {
    state.Keys == held.Keys && forall backend :: backend in state ==> state[backend].cancelled
  }

  lemma FinishIsStep(row: Row, proposed: Outcome)
    requires row.status.Running? && row.state == map[] && (row.cancelRequested || Proposable(proposed))
    ensures FinishStep(row, Runs.Ended(row, FinishOutcome(row, proposed)))
  {
    var witnessed := if row.cancelRequested then Outcome(Cancelled, 130, None) else proposed;
    assert Proposable(witnessed) && FinishOutcome(row, witnessed) == FinishOutcome(row, proposed);
  }

  /** `finish_run`, once nothing is held. */
  method FinishRun(store: Store, run: Row, proposed: Outcome) returns (finished: Result<()>)
    requires Active(store.history) && Last(store.history).state == map[]
    requires (run.cancelRequested ==> Last(store.history).cancelRequested)
              && (run.cancelRequested || Proposable(proposed))
    modifies store`history
    ensures HistoryOk(store.history) && old(store.history) <= store.history
    // A run whose row names another worker by now is not ended.
    ensures finished.Ok? ==> old(Last(store.history)).worker == run.worker
    // The row that is read in the ending transaction decides between the proposed outcome and the requested stop.
    ensures finished.Ok? ==>
              |old(store.history)| < |store.history| && EndedAs(old(Last(store.history)), store.history, proposed)
    ensures finished.Err? ==>
              && Active(store.history) && Undisturbed(old(Last(store.history)), Last(store.history))
              && (!store.reliable || old(Last(store.history)).worker != run.worker)
  {
    var current :- store.Load();
    if current.worker != run.worker {
      return Err("broker-worker-identity-mismatch");
    }
    var outcome := FinishOutcome(current, proposed);
    var next := Runs.Ended(current, outcome);
    FinishIsStep(current, proposed);
    EndsAsProposed(current, proposed);
    HistoryGrows(store.history, next);
    store.history := store.history + [next];
    return Ok(());
  }

  lemma EndsAsProposed(row: Row, proposed: Outcome)
    ensures EndsSo(row, Runs.Ended(row, FinishOutcome(row, proposed)), proposed)
  {
  }

  method FinishAnswers(run: Row, reliable: bool) returns (answers: Answers)
    ensures CodesValid(answers) && (reliable ==> !Misreported(run, answers))
  {
    var cgroup := BackendFinish(run.resources, reliable);
    var quota := BackendFinish(run.resources, reliable);
    return Answers(cgroup, quota);
  }

  /** End a run that holds nothing. */
  method Finish(store: Store, proposed: Outcome) returns (finished: Result<()>)
    requires Active(store.history) && Last(store.history).state == map[] && Proposable(proposed)
    modifies store`history
    ensures HistoryOk(store.history) && old(store.history) <= store.history
    ensures finished.Ok? ==> EndedWith(store.history, |old(store.history)| - 1, proposed)
    ensures finished.Ok? ==>
              Last(store.history).receipt == old(Last(store.history)).receipt
              && Last(store.history).contract == old(Last(store.history)).contract
    ensures finished.Ok? && old(Last(store.history)).cancelRequested ==> StoppedAtEnd(store.history)
    ensures finished.Err? ==> !store.reliable
  {
    var refreshed :- store.Load();
    finished := FinishRun(store, refreshed, proposed);
  }

  /** Finish and clean up whatever the run holds. */
  method GiveUpAll(store: Store) returns (done: Result<()>)
    requires Active(store.history)
    modifies store`history
    ensures Active(store.history) && old(store.history) <= store.history
    ensures done.Ok? ==> Last(store.history).state == map[]
    ensures SameRequest(old(Last(store.history)), Last(store.history))
    ensures SameRecord(old(Last(store.history)), Last(store.history))
    ensures done.Err? ==> !store.reliable
  {
    done := FinishAll(store);
    HistoryRecords(store.history, |old(store.history)| - 1, |store.history| - 1);
  }

  method FinishAll(store: Store) returns (done: Result<()>)
    requires Active(store.history)
    modifies store`history
    ensures Active(store.history) && old(store.history) <= store.history
    ensures done.Ok? ==> Last(store.history).state == map[]
    ensures SameRequest(old(Last(store.history)), Last(store.history))
    ensures done.Err? ==> !store.reliable
  {
    var refreshed :- store.Load();
    var answers := FinishAnswers(refreshed, store.reliable);
    done := store.FinishAndCleanup(refreshed, answers);
  }

  /** Whatever is held is asked to cancel, each backend once. */
  method CancelHeld(store: Store) returns (done: Result<()>)
    requires Active(store.history)
    modifies store`history
    ensures Active(store.history) && old(store.history) <= store.history
    ensures SameRequest(old(Last(store.history)), Last(store.history))
    ensures done.Ok? ==> AllMarked(old(Last(store.history)).state, Last(store.history).state)
    ensures done.Ok? ==>
              PassedOn(old(Last(store.history)).receipt, Last(store.history).receipt, old(Last(store.history)).state)
    ensures done.Err? ==> !store.reliable
  {
    var refreshed :- store.Load();
    var _ :- store.CancelResources(refreshed);
    return Ok(());
  }

  /** Every backend that was not cancelled yet is asked to cancel, and what it answers is on record. */
  ghost predicate PassedOn(before: Receipt, after: Receipt, held: States) {
    if SomeUncancelled(held) then AllCancelAsked(before, after, held) else after == before
  }

  /** Finish and clean up whatever the run holds, and end it. */
  method CleanUpAndFinish(store: Store, proposed: Outcome) returns (finished: Result<()>)
    requires Active(store.history) && Proposable(proposed)
    modifies store`history
    ensures HistoryOk(store.history) && old(store.history) <= store.history
    ensures finished.Ok? ==> EndedWith(store.history, |old(store.history)| - 1, proposed)
    ensures finished.Ok? && old(Last(store.history)).cancelRequested ==> StoppedAtEnd(store.history)
    ensures finished.Ok? ==> SameRecord(old(Last(store.history)), Last(store.history))
    ensures finished.Err? ==> !store.reliable
  {
    var _ :- GiveUpAll(store);
    finished := Finish(store, proposed);
  }

  /** The contract is the same, and no event of the earlier row is lost. */
  ghost predicate SameRecord(before: Row, after: Row) {
    after.contract == before.contract && before.receipt.events <= after.receipt.events
  }

  lemma {:induction false} HistoryRecords(history: seq<Row>, i: nat, j: nat)
    requires HistoryOk(history) && i <= j < |history|
    ensures SameRecord(history[i], history[j])
    decreases j
  {
    if i < j {
      HistoryRecords(history, i, j - 1);
      StepRecords(history, j - 1);
    }
  }

  lemma StepRecords(history: seq<Row>, k: nat)
    requires HistoryOk(history) && k + 1 < |history|
    ensures SameRecord(history[k], history[k + 1])
  {
    ExtendsAt(history, k);
    assert StepAt(history, k);
  }

  /** Stop the worker through what it is attached to, and end the run. */
  method CancelAndFinish(store: Store, proposed: Outcome) returns (finished: Result<()>)
    requires Active(store.history) && Proposable(proposed)
    modifies store`history
    ensures HistoryOk(store.history) && old(store.history) <= store.history
    ensures finished.Ok? ==> EndedWith(store.history, |old(store.history)| - 1, proposed)
    ensures finished.Ok? ==>
              CancelledFirst(store.history, |old(store.history)| - 1, old(Last(store.history)).state)
    ensures finished.Ok? && old(Last(store.history)).cancelRequested ==> StoppedAtEnd(store.history)
    ensures finished.Err? ==> !store.reliable
  {
    var _ :- CancelHeld(store);
    ghost var at := |store.history| - 1;
    assert AllMarked(old(Last(store.history)).state, store.history[at].state);
    finished := CleanUpAndFinish(store, proposed);
  }

  // ---------------------------------------------------------------- start_worker

  /** What `verify_setup` hears from the worker. */
  datatype SetupReport = Verified | Refused(code: string) | Broke(code: string)

  /** What has been established once the worker is attached. */
  ghost predicate ReadyToVerify(row: Row, setup: WorkerSetup) {
    && Covered(row.contract, setup) && OnlyTwoBackends(row.contract)
    && Attached(row.contract, row.receipt.applied)
    && (Held(row.contract, row.state) || row.state == map[])
  }

  /** Everything required is applied, and still held unless an attachment failed and gave everything up. */
  ghost predicate MayRelease(row: Row) {
    RequiredApplied(row.contract, row.receipt.applied) && (Held(row.contract, row.state) || row.state == map[])
  }

  /** A release need not be a release with everything required held: when a best-effort attachment fails,
      everything is given up, and what had been applied is still recorded as applied. */
  lemma ReleasedUnheld()
    ensures exists row :: UnheldRelease(row)
  {
    GaveUpRowOk();
    GaveUpUnheld();
    assert UnheldRelease(GaveUp());
  }

  ghost predicate UnheldRelease(row: Row) {
    RowOk(row) && row.status.Running? && MayRelease(row) && !Held(row.contract, row.state)
  }

  lemma GaveUpUnheld()
    ensures MayRelease(GaveUp()) && !Held(GaveUp().contract, GaveUp().state)
  {
    OnlyProcessorsRequired();
    assert IsRequired(GivenUp(), "cpu") && !InRecord(GivenUp(), map[], "cpu");
  }

  lemma GaveUpRowOk()
    ensures RowOk(GaveUp())
  {
    GaveUpContract();
    GaveUpReceipt();
  }

  /** A run whose processors were confined and whose best-effort quota could not be attached. */
  ghost function GaveUp(): Row {
    var units := map["cpu" := 2, "disk" := 4096, "files" := 16];
    Row(Check, ["cpu", "disk", "files"], units, GivenUp(), Running, Working, false, None, None, None,
        Some(Worker(7, "boot:1")),
        Receipt(units, map["cpu" := 2], map[], [QuotaFailed("disk"), QuotaFailed("files")]), map[])
  }

  function GivenUp(): map<string, Binding> {
    map["cpu" := Binding(Some(CGROUP_BACKEND), Kind.Cpu, Required, LogicalCpu, false),
        "disk" := Binding(Some(QUOTA_BACKEND), Kind.Storage, BestEffort, Bytes, false),
        "files" := Binding(Some(QUOTA_BACKEND), Kind.Inodes, BestEffort, InodeCount, false)]
  }

  function QuotaFailed(name: string): Event {
    Event(QUOTA_BACKEND, name, Attach, Unapplied, "attach-failed")
  }

  lemma OnlyProcessorsRequired()
    ensures forall name :: IsRequired(GivenUp(), name) <==> name == "cpu"
  {
    assert |"cpu"| == 3 && |"disk"| == 4 && |"files"| == 5;
  }

  lemma GaveUpContract()
    ensures RequestOk(GaveUp())
  {
    GivenUpBindings();
    assert |"cpu"| == 3 && |"disk"| == 4 && |"files"| == 5;
    assert forall name :: name in GivenUp() ==> !Scratch(GivenUp()[name], Tmpfs);
  }

  lemma GivenUpBindings()
    ensures forall name :: name in GivenUp() ==> ValidBinding(GivenUp()[name]) && GivenUp()[name].kind != Tmpfs
  {
    KnownCodes();
  }

  lemma GaveUpReceipt()
    ensures ReceiptValid(GaveUp().receipt, GaveUp().resources)
  {
    KnownCodes();
    StockCodes();
    assert |"cpu"| == 3 && |"disk"| == 4 && |"files"| == 5;
  }

  /** What the run ends as when its worker is not released, unless a stop was requested: a failed setup that is fatal is
      an
      enforcement failure, a worker that broke off has its own code unless a quota was held, and otherwise the release
      itself was lost. */
  ghost predicate VerifyOutcome(row: Row, report: SetupReport, lost: bool, outcome: Outcome) {
    && outcome.status.Broken? && outcome.exit == 125
    && match report
       case Broke(code) =>
         outcome.failure == if QUOTA_BACKEND in row.state then Some("resource-enforcement-failed") else Some(code)
       case Refused(code) =>
         if SetupFatal(row, code) then outcome.failure == Some("resource-enforcement-failed")
         else lost && outcome.failure == Some("broker-worker-handshake-failed")
       case Verified => lost && outcome.failure == Some("broker-worker-handshake-failed")
  }

  /** From row `from` on the run was ended because of this report, of a lost release, or of a requested stop, and what
      it
      held had been cancelled. */
  ghost predicate EndedUnverified(history: seq<Row>, from: nat, row: Row, report: SetupReport, lost: bool) {
    && CancelledFirst(history, from, row.state)
    && exists outcome ::
         EndedWith(history, from, outcome) && (VerifyOutcome(row, report, lost, outcome) || StoppedAtEnd(history))
  }

  /** What the report added to the receipt of this row: the applied setup, or the failure that is not fatal. */
  ghost predicate ReportRecorded(row: Row, after: Receipt, setup: WorkerSetup, report: SetupReport) {
    match report
    case Broke(_) => false
    case Refused(code) => SetupRefused(row, after, code) && !SetupFatal(row, code)
    case Verified => SetupAdded(row, after, setup)
  }

  /** A report that the broker cannot record: a setup that does not fit what is held, a malformed code, or a failure
      that
      concerns nothing. */
  ghost predicate Unrecordable(row: Row, setup: WorkerSetup, report: SetupReport) {
    match report
    case Broke(code) => QUOTA_BACKEND in row.state && (!CodeValid(code) || !SetupConcerns(row, code))
    case Refused(code) => !CodeValid(code) || !SetupConcerns(row, code)
    case Verified => !SetupFits(row, setup)
  }

  /** From the setup report to the release, which is `lost` when the worker does not take it. */
  method VerifyAndRelease(store: Store, setup: WorkerSetup, report: SetupReport, lost: bool)
    returns (done: Result<()>, released: bool)
    requires Active(store.history) && ReadyToVerify(Last(store.history), setup)
    requires report.Broke? ==> report.code != BROKER_STOPPED
    modifies store`history
    ensures HistoryOk(store.history) && old(store.history) <= store.history
    ensures released ==> done.Ok? && Active(store.history) && MayRelease(Last(store.history)) && !lost
    ensures released ==> !Last(store.history).cancelRequested
    ensures released ==>
              ReportRecorded(old(Last(store.history)), Last(store.history).receipt, setup, report)
              && SameRequest(old(Last(store.history)), Last(store.history))
    ensures done.Ok? && !released ==>
              EndedUnverified(store.history, |old(store.history)| - 1, old(Last(store.history)), report, lost)
    ensures done.Err? ==> !store.reliable || Unrecordable(old(Last(store.history)), setup, report)
  {
    released := false;
    ghost var from: nat := |store.history| - 1;
    var refreshed := store.Load();
    if refreshed.Err? {
      return Err(refreshed.code), false;
    }
    ghost var at: nat := |store.history| - 1;
    done, released := VerifyReport(store, refreshed.value, setup, report, lost);
    if done.Ok? && !released {
      UnverifiedEarlier(store.history, from, at, refreshed.value, report, lost);
    }
    AlikeReports(old(Last(store.history)), refreshed.value, store.history, from, setup, report, lost);
  }

  /** Act on the report for the row as it was read. */
  method VerifyReport(store: Store, run: Row, setup: WorkerSetup, report: SetupReport, lost: bool)
    returns (done: Result<()>, released: bool)
    requires Active(store.history) && ReadyToVerify(run, setup) && Undisturbed(run, Last(store.history)) && RowOk(run)
    requires report.Broke? ==> report.code != BROKER_STOPPED
    modifies store`history
    ensures HistoryOk(store.history) && old(store.history) <= store.history
    ensures released ==> done.Ok? && Active(store.history) && MayRelease(Last(store.history)) && !lost
    ensures released ==> !Last(store.history).cancelRequested
    ensures released ==> ReportRecorded(run, Last(store.history).receipt, setup, report)
    ensures released ==> SameRequest(old(Last(store.history)), Last(store.history))
    ensures done.Ok? && !released ==> EndedUnverified(store.history, |old(store.history)| - 1, run, report, lost)
    ensures done.Err? ==> !store.reliable || Unrecordable(run, setup, report)
  {
    released := false;
    if report.Broke? {
      done := AbandonSetup(store, run, report.code, lost);
    } else {
      done, released := RecordAndRelease(store, run, setup, report, lost);
    }
  }

  lemma UnverifiedEarlier(history: seq<Row>, from: nat, at: nat, row: Row, report: SetupReport, lost: bool)
    requires from <= at && EndedUnverified(history, at, row, report, lost)
    ensures EndedUnverified(history, from, row, report, lost)
  {
    var i :| at <= i < |history| && AllMarked(row.state, history[i].state);
    var outcome :| EndedWith(history, at, outcome)
        && (VerifyOutcome(row, report, lost, outcome) || StoppedAtEnd(history));
    assert EndedWith(history, from, outcome);
  }

  lemma AlikeReports(before: Row, after: Row, history: seq<Row>, from: nat, setup: WorkerSetup, report: SetupReport,
                     lost: bool)
    requires Undisturbed(before, after) && history != []
    ensures Unrecordable(before, setup, report) <==> Unrecordable(after, setup, report)
    ensures ReportRecorded(after, Last(history).receipt, setup, report) ==>
              ReportRecorded(before, Last(history).receipt, setup, report)
    ensures EndedUnverified(history, from, after, report, lost) ==> EndedUnverified(history, from, before, report, lost)
  {
    AlikeSetups(before, after, Last(history).receipt, setup, report);
    if EndedUnverified(history, from, after, report, lost) {
      AlikeEnds(before, after, history, from, report, lost);
    }
  }

  /** What is said of a setup does not depend on what clients change. */
  lemma AlikeSetups(before: Row, after: Row, receipt: Receipt, setup: WorkerSetup, report: SetupReport)
    requires Undisturbed(before, after)
    ensures Unrecordable(before, setup, report) <==> Unrecordable(after, setup, report)
    ensures ReportRecorded(after, receipt, setup, report) ==> ReportRecorded(before, receipt, setup, report)
  {
    if report.Refused? && SetupRefused(after, receipt, report.code) {
      var middle :| CgroupRefused(after, middle, report.code) && QuotaRefused(after, middle, receipt, report.code);
      assert CgroupRefused(before, middle, report.code) && QuotaRefused(before, middle, receipt, report.code);
    }
  }

  lemma AlikeEnds(before: Row, after: Row, history: seq<Row>, from: nat, report: SetupReport, lost: bool)
    requires Undisturbed(before, after) && EndedUnverified(history, from, after, report, lost)
    ensures EndedUnverified(history, from, before, report, lost)
  {
    var outcome :| EndedWith(history, from, outcome)
        && (VerifyOutcome(after, report, lost, outcome) || StoppedAtEnd(history));
    assert VerifyOutcome(before, report, lost, outcome) || StoppedAtEnd(history);
  }

  /** The report is recorded, and unless that is fatal the worker is released. */
  method RecordAndRelease(store: Store, run: Row, setup: WorkerSetup, report: SetupReport, lost: bool)
    returns (done: Result<()>, released: bool)
    requires Active(store.history) && ReadyToVerify(run, setup) && Undisturbed(run, Last(store.history)) && RowOk(run)
    requires !report.Broke?
    modifies store`history
    ensures HistoryOk(store.history) && old(store.history) <= store.history
    ensures released ==> done.Ok? && Active(store.history) && MayRelease(Last(store.history)) && !lost
    ensures released ==> !Last(store.history).cancelRequested
    ensures released ==> ReportRecorded(run, Last(store.history).receipt, setup, report)
    ensures released ==> SameRequest(old(Last(store.history)), Last(store.history))
    ensures done.Ok? && !released ==> EndedUnverified(store.history, |old(store.history)| - 1, run, report, lost)
    ensures done.Err? ==> !store.reliable || Unrecordable(run, setup, report)
  {
    released := false;
    var fatal := RecordReport(store, run, setup, report);
    if fatal.Err? {
      return Err(fatal.code), false;
    }
    ghost var at := |store.history| - 1;
    if fatal.value {
      done := CancelAndFinish(store, ENFORCEMENT_FAILED);
      if done.Ok? {
        EndsUnverified(store.history, |old(store.history)| - 1, at, run, report, lost, ENFORCEMENT_FAILED);
      }
    } else {
      done, released := Release(store, lost);
      if done.Ok? && !released {
        EndsUnverified(store.history, |old(store.history)| - 1, at, run, report, lost,
                       Outcome(Broken, 125, Some("broker-worker-handshake-failed")));
      }
    }
  }

  /** The report is recorded, which tells whether it is fatal. */
  method RecordReport(store: Store, run: Row, setup: WorkerSetup, report: SetupReport) returns (fatal: Result<bool>)
    requires Active(store.history) && ReadyToVerify(run, setup) && Undisturbed(run, Last(store.history)) && RowOk(run)
    requires !report.Broke?
    modifies store`history
    ensures Active(store.history) && old(store.history) <= store.history
    ensures SameRequest(old(Last(store.history)), Last(store.history))
    ensures fatal.Ok? ==> Last(store.history).state == run.state
    ensures fatal.Ok? ==> (fatal.value <==> report.Refused? && SetupFatal(run, report.code))
    ensures fatal == Ok(false) ==>
              MayRelease(Last(store.history)) && ReportRecorded(run, Last(store.history).receipt, setup, report)
    ensures fatal.Err? ==> !store.reliable || Unrecordable(run, setup, report)
  {
    if report.Refused? {
      fatal := store.RecordWorkerSetupFailure(run, report.code);
    } else {
      var recorded := store.RecordWorkerSetup(run, setup);
      fatal := if recorded.Ok? then Ok(false) else Err(recorded.code);
    }
  }

  lemma EndsUnverified(history: seq<Row>, from: nat, at: nat, run: Row, report: SetupReport, lost: bool,
                       outcome: Outcome)
    requires from <= at && EndedWith(history, at, outcome) && CancelledFirst(history, at, run.state)
    requires VerifyOutcome(run, report, lost, outcome) || StoppedAtEnd(history)
    ensures EndedUnverified(history, from, run, report, lost)
  {
    var i :| at <= i < |history| && AllMarked(run.state, history[i].state);
    assert CancelledFirst(history, from, run.state);
    assert EndedWith(history, from, outcome);
  }

  /** The last look at the row, and the release. */
  method Release(store: Store, lost: bool) returns (done: Result<()>, released: bool)
    requires Active(store.history) && MayRelease(Last(store.history))
    modifies store`history
    ensures HistoryOk(store.history) && old(store.history) <= store.history
    ensures released ==> done.Ok? && Active(store.history) && MayRelease(Last(store.history)) && !lost
    // Nobody had asked to stop when the worker was released.
    ensures released ==>
              !Last(store.history).cancelRequested && Undisturbed(old(Last(store.history)), Last(store.history))
    ensures done.Ok? && !released ==>
              && EndedWith(store.history, |old(store.history)| - 1,
                           Outcome(Broken, 125, Some("broker-worker-handshake-failed")))
              && CancelledFirst(store.history, |old(store.history)| - 1, old(Last(store.history)).state)
              && (lost || StoppedAtEnd(store.history))
    ensures done.Err? ==> !store.reliable
  {
    var refreshed := store.Load();
    if refreshed.Err? {
      return Err(refreshed.code), false;
    }
    released := false;
    if refreshed.value.cancelRequested {
      done := CancelAndFinish(store, Outcome(Cancelled, 130, None));
      return;
    }
    if lost {
      done := CancelAndFinish(store, Outcome(Broken, 125, Some("broker-worker-handshake-failed")));
      return;
    }
    return Ok(()), true;
  }

  /** The worker broke off during setup. */
  method AbandonSetup(store: Store, run: Row, code: string, ghost lost: bool) returns (done: Result<()>)
    requires Active(store.history) && Undisturbed(run, Last(store.history)) && RowOk(run) && code != BROKER_STOPPED
    modifies store`history
    ensures HistoryOk(store.history) && old(store.history) <= store.history
    ensures done.Ok? ==> EndedUnverified(store.history, |old(store.history)| - 1, run, Broke(code), lost)
    // With a quota the failure is on record first.
    ensures done.Ok? && QUOTA_BACKEND in run.state ==>
              FailureRecorded(store.history, |old(store.history)| - 1, run, code)
    ensures done.Err? ==>
              !store.reliable || (QUOTA_BACKEND in run.state && (!CodeValid(code) || !SetupConcerns(run, code)))
  {
    var quotaFailure := QUOTA_BACKEND in run.state;
    var outcome := if quotaFailure then ENFORCEMENT_FAILED else Outcome(Broken, 125, Some(code));
    var _ :- RecordBreak(store, run, code, quotaFailure);
    ghost var at := |store.history| - 1;
    done := EndBroken(store, run, code, outcome, |old(store.history)| - 1, lost);
  }

  /** A worker that broke off with a quota is a failed setup. */
  method RecordBreak(store: Store, run: Row, code: string, quotaFailure: bool) returns (recorded: Result<()>)
    requires Active(store.history) && Undisturbed(run, Last(store.history)) && RowOk(run)
    modifies store`history
    ensures Active(store.history) && old(store.history) <= store.history
    ensures recorded.Ok? ==> Last(store.history).state == run.state
    ensures recorded.Ok? && quotaFailure ==> SetupRefused(run, Last(store.history).receipt, code)
    ensures recorded.Err? ==> !store.reliable || (quotaFailure && (!CodeValid(code) || !SetupConcerns(run, code)))
  {
    if quotaFailure {
      var _ :- store.RecordWorkerSetupFailure(run, code);
    }
    return Ok(());
  }

  method EndBroken(store: Store, ghost run: Row, ghost code: string, outcome: Outcome, ghost from: nat,
                   ghost lost: bool)
    returns (done: Result<()>)
    requires Active(store.history) && Last(store.history).state == run.state && from < |store.history|
    requires Proposable(outcome) && VerifyOutcome(run, Broke(code), lost, outcome)
    modifies store`history
    ensures HistoryOk(store.history) && old(store.history) <= store.history
    ensures done.Ok? ==> EndedUnverified(store.history, from, run, Broke(code), lost)
    ensures done.Err? ==> !store.reliable
  {
    ghost var at := |store.history| - 1;
    done := CancelAndFinish(store, outcome);
    if done.Ok? {
      EndsUnverified(store.history, from, at, run, Broke(code), lost, outcome);
    }
  }

  ghost predicate FailureRecorded(history: seq<Row>, from: nat, run: Row, code: string) {
    exists i :: from <= i < |history| && SetupRefused(run, history[i].receipt, code)
  }

  /** The commit that names the worker. */
  method CommitIdentity(store: Store, worker: Worker) returns (committed: Result<()>)
    requires Active(store.history)
    modifies store`history
    ensures Active(store.history) && old(store.history) <= store.history
    ensures committed.Err? ==>
              Undisturbed(old(Last(store.history)), Last(store.history))
              && (!store.reliable || old(Last(store.history)).worker.Some?)
    ensures committed.Ok? ==>
              && old(Last(store.history)).worker.None?
              && Last(store.history).worker == Some(worker)
              && Undisturbed(old(Last(store.history)).(worker := Some(worker)), Last(store.history))
  {
    var refreshed :- store.Load();
    if refreshed.worker.Some? {
      return Err("broker-worker-identity-mismatch");
    }
    var next := refreshed.(worker := Some(worker));
    assert IdentityStep(refreshed, next);
    HistoryGrows(store.history, next);
    store.history := store.history + [next];
    return Ok(());
  }

  /** What the run ends as when its worker could not be started. */
  ghost predicate StartFailure(code: string, outcome: Outcome) {
    && outcome.status.Broken?
    && if code == "broker-worker-start-failed" then outcome.exit == 127
       && outcome.failure == Some("worker-start-failed")
       else outcome.exit == 125 && outcome.failure == Some(code)
  }

  /** How a prepared run ends: its worker could not be started or attached, or some row after the attachment shows why
      it
      was not released. */
  ghost predicate EndedUnreleased(history: seq<Row>, from: nat, setup: WorkerSetup, spawned: Result<Worker>,
                                  report: SetupReport, lost: bool)
  {
    if spawned.Err? then
      exists outcome :: EndedWith(history, from, outcome) && StartFailure(spawned.code, outcome)
    else
      EndedUnenforced(history, from) || EndedAfterReport(history, from, setup, report, lost)
  }

  /** The run ended because something required could not be enforced, which is on record, or as the requested stop. */
  ghost predicate EndedUnenforced(history: seq<Row>, from: nat) {
    && EndedWith(history, from, Outcome(Broken, 125, Some("resource-enforcement-failed")))
    && (StoppedAtEnd(history) || Unenforced(Last(history)))
  }

  ghost predicate EndedAfterReport(history: seq<Row>, from: nat, setup: WorkerSetup, report: SetupReport, lost: bool) {
    exists at ::
      && from <= at < |history| && ReadyToVerify(history[at], setup)
      && EndedUnverified(history, at, history[at], report, lost)
  }

  /** Once the worker is attached, some row shows what the report added. */
  ghost predicate ReportedSince(history: seq<Row>, from: nat, setup: WorkerSetup, report: SetupReport) {
    exists at ::
      && from <= at < |history| && ReadyToVerify(history[at], setup)
      && ReportRecorded(history[at], Last(history).receipt, setup, report)
  }

  /** Once the worker is attached, some row shows why its report cannot be recorded. */
  ghost predicate UnrecordableSince(history: seq<Row>, from: nat, setup: WorkerSetup, report: SetupReport) {
    exists at ::
      from <= at < |history| && ReadyToVerify(history[at], setup) && Unrecordable(history[at], setup, report)
  }

  /** From the prepared setup to the attached worker. */
  method Launch(store: Store, setup: WorkerSetup, spawned: Result<Worker>, report: SetupReport, lost: bool)
    returns (done: Result<()>, released: bool)
    requires Active(store.history)
    requires Held(Last(store.history).contract, Last(store.history).state) && Fresh(Last(store.history).state)
    requires Covered(Last(store.history).contract, setup)
    requires spawned.Err? ==> spawned.code != BROKER_STOPPED
    requires report.Broke? ==> report.code != BROKER_STOPPED
    modifies store`history
    ensures HistoryOk(store.history) && old(store.history) <= store.history
    ensures released ==> done.Ok? && Active(store.history) && MayRelease(Last(store.history)) && !lost
    ensures released ==> !Last(store.history).cancelRequested
    ensures released ==> spawned.Ok? && Last(store.history).worker == Some(spawned.value)
    ensures released ==> ReportedSince(store.history, |old(store.history)| - 1, setup, report)
    ensures done.Ok? && !released ==>
              EndedUnreleased(store.history, |old(store.history)| - 1, setup, spawned, report, lost)
    ensures done.Err? ==>
              || !store.reliable || (spawned.Ok? && old(Last(store.history)).worker.Some?)
              || (spawned.Ok? && UnrecordableSince(store.history, |old(store.history)| - 1, setup, report))
  {
    released := false;
    if spawned.Err? {
      done := AbandonStart(store, spawned.code);
      return;
    }
    var committed := CommitIdentity(store, spawned.value);
    if committed.Err? {
      return committed, false;
    }
    ghost var at := |store.history| - 1;
    done, released := AttachAndVerify(store, setup, report, lost);
    LaterStarts(store.history, |old(store.history)| - 1, at, setup, report, lost);
  }

  lemma LaterStarts(history: seq<Row>, from: nat, at: nat, setup: WorkerSetup, report: SetupReport, lost: bool)
    requires from <= at
    ensures EndedUnenforced(history, at) ==> EndedUnenforced(history, from)
    ensures EndedAfterReport(history, at, setup, report, lost) ==> EndedAfterReport(history, from, setup, report, lost)
    ensures ReportedSince(history, at, setup, report) ==> ReportedSince(history, from, setup, report)
    ensures UnrecordableSince(history, at, setup, report) ==> UnrecordableSince(history, from, setup, report)
  {
  }

  /** From the committed identity to the release. */
  method AttachAndVerify(store: Store, setup: WorkerSetup, report: SetupReport, lost: bool)
    returns (done: Result<()>, released: bool)
    requires Active(store.history)
    requires Held(Last(store.history).contract, Last(store.history).state) && Fresh(Last(store.history).state)
    requires Covered(Last(store.history).contract, setup)
    requires report.Broke? ==> report.code != BROKER_STOPPED
    modifies store`history
    ensures HistoryOk(store.history) && old(store.history) <= store.history
    ensures released ==> done.Ok? && Active(store.history) && MayRelease(Last(store.history)) && !lost
    ensures released ==> !Last(store.history).cancelRequested
    ensures released ==> Last(store.history).worker == old(Last(store.history)).worker
    ensures released ==> ReportedSince(store.history, |old(store.history)| - 1, setup, report)
    ensures done.Ok? && !released ==>
              EndedUnenforced(store.history, |old(store.history)| - 1)
              || EndedAfterReport(store.history, |old(store.history)| - 1, setup, report, lost)
    ensures done.Err? ==>
              !store.reliable || UnrecordableSince(store.history, |old(store.history)| - 1, setup, report)
  {
    released := false;
    var attached := AttachWorker(store, setup);
    if attached.Err? {
      return Err(attached.code), false;
    }
    ghost var at := |store.history| - 1;
    if attached.value {
      done, released := VerifyAndRelease(store, setup, report, lost);
      assert ReadyToVerify(store.history[at], setup);
    } else {
      done := Finish(store, ENFORCEMENT_FAILED);
    }
  }

  method AttachWorker(store: Store, setup: WorkerSetup) returns (attached: Result<bool>)
    requires Active(store.history)
    requires Held(Last(store.history).contract, Last(store.history).state) && Fresh(Last(store.history).state)
    requires Covered(Last(store.history).contract, setup)
    modifies store`history
    ensures Active(store.history) && old(store.history) <= store.history
    ensures SameRequest(old(Last(store.history)), Last(store.history))
    ensures attached == Ok(true) ==> ReadyToVerify(Last(store.history), setup)
    ensures attached == Ok(false) ==>
              Last(store.history).state == map[]
              && Explained(Last(store.history).contract, Last(store.history).receipt.events)
    ensures attached.Err? ==> !store.reliable
  {
    var run :- store.Load();
    HeldByTwo(run.contract, run.state);
    ghost var cgroup: bool, quota: bool;
    attached, cgroup, quota := store.AttachResources(run);
  }

  /** The worker could not be started. */
  method AbandonStart(store: Store, code: string) returns (done: Result<()>)
    requires Active(store.history) && code != BROKER_STOPPED
    modifies store`history
    ensures HistoryOk(store.history) && old(store.history) <= store.history
    ensures done.Ok? ==>
              exists outcome ::
                  EndedWith(store.history, |old(store.history)| - 1, outcome) && StartFailure(code, outcome)
    ensures done.Err? ==> !store.reliable
  {
    var startFailure := code == "broker-worker-start-failed";
    var outcome := if startFailure then Outcome(Broken, 127, Some("worker-start-failed"))
        else Outcome(Broken, 125, Some(code));
    assert StartFailure(code, outcome);
    done := EndUnstarted(store, outcome);
  }

  /** End a run whose worker was never started, cleaning up what it holds. */
  method EndUnstarted(store: Store, outcome: Outcome) returns (done: Result<()>)
    requires Active(store.history) && Proposable(outcome)
    modifies store`history
    ensures HistoryOk(store.history) && old(store.history) <= store.history
    ensures done.Ok? ==> EndedWith(store.history, |old(store.history)| - 1, outcome)
    ensures done.Err? ==> !store.reliable
  {
    var refreshed :- store.Load();
    if refreshed.state != map[] {
      done := CleanUpAndFinish(store, outcome);
    } else {
      done := Finish(store, outcome);
    }
  }

  /** From the admitted row to the prepared setup. */
  method PrepareStart(store: Store) returns (done: Result<()>, setup: Option<WorkerSetup>)
    requires Active(store.history) && Last(store.history).state == map[]
    modifies store`history
    ensures HistoryOk(store.history) && old(store.history) <= store.history
    ensures setup.Some? ==> Active(store.history) && done.Ok?
    ensures setup.Some? ==>
              Held(Last(store.history).contract, Last(store.history).state) && Fresh(Last(store.history).state)
    ensures setup.Some? ==> Covered(Last(store.history).contract, setup.value)
    ensures setup.Some? ==> SameRequest(old(Last(store.history)), Last(store.history))
    // A run that was already asked to stop is not prepared.
    ensures setup.Some? ==> !old(Last(store.history)).cancelRequested
    ensures done.Ok? && setup.None? ==> EndedUnenforced(store.history, |old(store.history)| - 1)
    ensures done.Err? ==> !store.reliable
  {
    setup := None;
    var current := store.Load();
    if current.Err? {
      return Err(current.code), None;
    }
    if current.value.cancelRequested {
      done := Finish(store, Outcome(Cancelled, 130, None));
      return;
    }
    done, setup := PrepareNow(store, current.value);
  }

  /** The resources and the scratch space of a run that nobody asked to stop. */
  method PrepareNow(store: Store, run: Row) returns (done: Result<()>, setup: Option<WorkerSetup>)
    requires Active(store.history) && Undisturbed(run, Last(store.history)) && RowOk(run) && run.state == map[]
    modifies store`history
    ensures HistoryOk(store.history) && old(store.history) <= store.history
    ensures setup.Some? ==> Active(store.history) && done.Ok?
    ensures setup.Some? ==>
              Held(Last(store.history).contract, Last(store.history).state) && Fresh(Last(store.history).state)
    ensures setup.Some? ==> Covered(Last(store.history).contract, setup.value)
    ensures setup.Some? ==> SameRequest(old(Last(store.history)), Last(store.history))
    ensures done.Ok? && setup.None? ==> EndedUnenforced(store.history, |old(store.history)| - 1)
    ensures done.Err? ==> !store.reliable
  {
    setup := None;
    var prepared: Result<bool>;
    ghost var eligible: map<string, seq<string>>, held: States, answered: Receipt;
    prepared, eligible, held, answered := store.PrepareResources(run);
    if prepared.Err? {
      return Err(prepared.code), None;
    }
    ghost var at := |store.history| - 1;
    if prepared.value {
      done, setup := SetUp(store);
    } else {
      done := Finish(store, ENFORCEMENT_FAILED);
    }
  }

  /** The worker's scratch space, or the end of the run. */
  method SetUp(store: Store) returns (done: Result<()>, setup: Option<WorkerSetup>)
    requires Active(store.history)
    requires Held(Last(store.history).contract, Last(store.history).state) && Fresh(Last(store.history).state)
    modifies store`history
    ensures HistoryOk(store.history) && old(store.history) <= store.history
    ensures setup.Some? ==> Active(store.history) && done.Ok?
    ensures setup.Some? ==>
              Held(Last(store.history).contract, Last(store.history).state) && Fresh(Last(store.history).state)
    ensures setup.Some? ==> Covered(Last(store.history).contract, setup.value)
    ensures setup.Some? ==> SameRequest(old(Last(store.history)), Last(store.history))
    ensures done.Ok? && setup.None? ==> EndedUnenforced(store.history, |old(store.history)| - 1)
    ensures done.Err? ==> !store.reliable
  {
    setup := None;
    var made: Result<WorkerSetup>, usable: bool;
    made, usable := MakeSetup(store);
    if made.Err? {
      return Err(made.code), None;
    }
    if usable {
      return Ok(()), Some(made.value);
    }
    done := EndUnusable(store);
  }

  method MakeSetup(store: Store) returns (setup: Result<WorkerSetup>, usable: bool)
    requires Active(store.history)
    requires Held(Last(store.history).contract, Last(store.history).state) && Fresh(Last(store.history).state)
    modifies store`history
    ensures Active(store.history) && old(store.history) <= store.history
    ensures SameRequest(old(Last(store.history)), Last(store.history))
    ensures setup.Ok? && usable ==>
              && Held(Last(store.history).contract, Last(store.history).state) && Fresh(Last(store.history).state)
              && Covered(Last(store.history).contract, setup.value)
    ensures setup.Ok? && !usable ==> Unenforced(Last(store.history))
    ensures setup.Err? ==> !store.reliable
  {
    var current := store.Load();
    if current.Err? {
      return Err(current.code), false;
    }
    ghost var middle: Option<Row>;
    setup, usable, middle := store.PrepareWorkerSetup(current.value);
    if setup.Ok? && !usable {
      SetupExplained(current.value, middle, Last(store.history), setup.value, store.reliable);
    }
  }

  /** Something required could not be enforced, or a quota not cleaned up, which is on record. */
  ghost predicate Unenforced(row: Row) {
    Explained(row.contract, row.receipt.events) || CleanupFailed(row.receipt, QUOTA_BACKEND)
  }

  method EndUnusable(store: Store) returns (done: Result<()>)
    requires Active(store.history) && Unenforced(Last(store.history))
    modifies store`history
    ensures HistoryOk(store.history) && old(store.history) <= store.history
    ensures done.Ok? ==> EndedUnenforced(store.history, |old(store.history)| - 1)
    ensures done.Err? ==> !store.reliable
  {
    done := CleanUpAndFinish(store, ENFORCEMENT_FAILED);
    if done.Ok? {
      StaysUnenforced(old(Last(store.history)), Last(store.history));
    }
  }

  /** A setup that may not be used failed for something required, or its cleanup failed; both are on record. */
  lemma SetupExplained(run: Row, middle: Option<Row>, after: Row, setup: WorkerSetup, reliable: bool)
    requires SetupSettled(run, middle, after, setup, false, reliable) && SameRequest(run, after)
    ensures Explained(after.contract, after.receipt.events) || CleanupFailed(after.receipt, QUOTA_BACKEND)
  {
    if middle.None? {
      var name :| name in run.state[CGROUP_BACKEND].resources && NeedsScratch(run.contract, name);
      var names := ScratchNames(run.contract, run.state[CGROUP_BACKEND].resources);
      assert name in names;
      OnceExplains(run.receipt.events, after.receipt.events, run.contract, CGROUP_BACKEND, names);
    } else if AnyRequired(run.contract, run.state[QUOTA_BACKEND].resources) {
      var names := run.state[QUOTA_BACKEND].resources;
      var before := middle.value.receipt;
      var n := |before.events| + |names|;
      OnceExplains(before.events, after.receipt.events[..n], run.contract, QUOTA_BACKEND, names);
      ExplainedStays(run.contract, after.receipt.events[..n], after.receipt.events);
    }
  }

  lemma OnceExplains(before: seq<Event>, after: seq<Event>, contract: Contract, backend: string, names: seq<string>)
    requires FailedOnce(before, after, contract, backend, names, Attach) && AnyRequired(contract, names)
    ensures Explained(contract, after)
  {
    var name :| name in names && name in contract && contract[name].IsRequired();
    var i :| 0 <= i < |names| && names[i] == name;
    assert FailureOf(contract, after[|before| + i]);
  }

  lemma StaysUnenforced(before: Row, after: Row)
    requires SameRecord(before, after)
    ensures Explained(before.contract, before.receipt.events) ==> Explained(after.contract, after.receipt.events)
    ensures CleanupFailed(before.receipt, QUOTA_BACKEND) ==> CleanupFailed(after.receipt, QUOTA_BACKEND)
  {
    if Explained(before.contract, before.receipt.events) {
      ExplainedStays(before.contract, before.receipt.events, after.receipt.events);
    }
    if CleanupFailed(before.receipt, QUOTA_BACKEND) {
      var i :| 0 <= i < |before.receipt.events| && before.receipt.events[i].backend == QUOTA_BACKEND
               && before.receipt.events[i].stage.Cleanup?
               && (before.receipt.events[i].status.Failed? || before.receipt.events[i].code == "cleanup-failed");
      assert after.receipt.events[i] == before.receipt.events[i];
    }
  }

  /** The row was admitted: it runs, a landing with its preflight first. */
  ghost predicate AdmittedAs(before: Row, after: Row) {
    after == before.(status := Running, phase := after.phase)
        && after.phase == if before.kind.Land? then Preflight else Working
  }

  /** `start_worker`. `spawned` and `report` are what the worker process does; its log can be opened when `logged`, and
      the release is
      `lost` when the worker does not take it. */
  method StartWorker(store: Store, logged: bool, spawned: Result<Worker>, report: SetupReport, lost: bool)
    returns (done: Result<()>, released: bool, ghost setup: Option<WorkerSetup>)
    requires HistoryOk(store.history)
    requires spawned.Err? ==> spawned.code != BROKER_STOPPED
    requires report.Broke? ==> report.code != BROKER_STOPPED
    modifies store`history
    ensures HistoryOk(store.history) && old(store.history) <= store.history
    ensures !old(Last(store.history)).status.Queued? ==> done.Ok? && !released && store.history == old(store.history)
    ensures old(Last(store.history)).status.Queued? ==>
              |store.history| > |old(store.history)|
              && AdmittedAs(old(Last(store.history)), store.history[|old(store.history)|])
    // A worker is released only when everything its contract requires is applied, and nobody asked to stop.
    ensures released ==> Active(store.history) && MayRelease(Last(store.history)) && !lost && logged
    ensures released ==> !Last(store.history).cancelRequested
    ensures released ==> spawned.Ok? && Last(store.history).worker == Some(spawned.value)
    ensures released ==> setup.Some? && ReportedSince(store.history, |old(store.history)|, setup.value, report)
    // Otherwise the run ended, nothing is held, and the outcome says why; a run that was not queued is left alone.
    ensures old(Last(store.history)).status.Queued? && done.Ok? && !released ==>
              StartEnded(store.history, |old(store.history)|, setup, spawned, report, lost)
    // Without a failing database only these are left unfinished: the log could not be logged, the row names a worker
    // already, or the report cannot be recorded.
    ensures done.Err? && store.reliable ==>
              setup.Some?
              && (!logged || (spawned.Ok? && (old(Last(store.history)).worker.Some?
                                              || UnrecordableSince(store.history, |old(store.history)|, setup.value,
                                                                   report))))
  {
    released, setup := false, None;
    LastRowOk(store.history);
    var row := store.history[|store.history| - 1];
    if !row.status.Queued? {
      return Ok(()), false, None;
    }
    Admit(store, row);
    done, released, setup := StartAdmitted(store, logged, spawned, report, lost);
  }

  /** `start_worker` from the admitted row on. */
  method StartAdmitted(store: Store, logged: bool, spawned: Result<Worker>, report: SetupReport, lost: bool)
    returns (done: Result<()>, released: bool, ghost setup: Option<WorkerSetup>)
    requires Active(store.history) && Last(store.history).state == map[]
    requires spawned.Err? ==> spawned.code != BROKER_STOPPED
    requires report.Broke? ==> report.code != BROKER_STOPPED
    modifies store`history
    ensures HistoryOk(store.history) && old(store.history) <= store.history
    ensures released ==> Active(store.history) && MayRelease(Last(store.history)) && !lost && logged
    ensures released ==> !Last(store.history).cancelRequested
    ensures released ==> spawned.Ok? && Last(store.history).worker == Some(spawned.value)
    ensures released ==> setup.Some? && ReportedSince(store.history, |old(store.history)| - 1, setup.value, report)
    ensures done.Ok? && !released ==>
              StartEnded(store.history, |old(store.history)| - 1, setup, spawned, report, lost)
    ensures done.Err? && store.reliable ==>
              setup.Some?
              && (!logged || (spawned.Ok? && (old(Last(store.history)).worker.Some?
                                              || UnrecordableSince(store.history, |old(store.history)| - 1, setup.value,
                                                                   report))))
  {
    ghost var at := |store.history| - 1;
    var made: Option<WorkerSetup>;
    done, made := PrepareStart(store);
    setup, released := made, false;
    if made.Some? {
      if logged {
        done, released := LaunchPrepared(store, at, made.value, spawned, report, lost);
      } else {
        done := Err("broker-worker-start-failed");
      }
    }
  }

  /** Launch the worker, and say what became of it since the start began `from`. */
  method LaunchPrepared(store: Store, ghost from: nat, setup: WorkerSetup, spawned: Result<Worker>,
                        report: SetupReport, lost: bool)
    returns (done: Result<()>, released: bool)
    requires Active(store.history) && from < |store.history|
    requires Held(Last(store.history).contract, Last(store.history).state) && Fresh(Last(store.history).state)
    requires Covered(Last(store.history).contract, setup)
    requires spawned.Err? ==> spawned.code != BROKER_STOPPED
    requires report.Broke? ==> report.code != BROKER_STOPPED
    modifies store`history
    ensures HistoryOk(store.history) && old(store.history) <= store.history
    ensures released ==> done.Ok? && Active(store.history) && MayRelease(Last(store.history)) && !lost
    ensures released ==> !Last(store.history).cancelRequested
    ensures released ==> spawned.Ok? && Last(store.history).worker == Some(spawned.value)
    ensures released ==> ReportedSince(store.history, from, setup, report)
    ensures done.Ok? && !released ==> EndedUnreleased(store.history, from, setup, spawned, report, lost)
    ensures done.Err? ==>
              || !store.reliable || (spawned.Ok? && old(Last(store.history)).worker.Some?)
              || (spawned.Ok? && UnrecordableSince(store.history, from, setup, report))
  {
    ghost var ready := |store.history| - 1;
    done, released := Launch(store, setup, spawned, report, lost);
    LaterStarts(store.history, from, ready, setup, report, lost);
    UnreleasedEarlier(store.history, from, ready, setup, spawned, report, lost);
  }

  lemma LastRowOk(history: seq<Row>)
    requires HistoryOk(history)
    ensures RowOk(Last(history))
  {
    RowAlwaysOk(history, |history| - 1);
  }

  /** How a started run ends: something required could not be enforced, or the prepared run ended unreleased. */
  ghost predicate StartEnded(history: seq<Row>, from: nat, setup: Option<WorkerSetup>, spawned: Result<Worker>,
                             report: SetupReport, lost: bool)
  {
    if setup.None? then EndedUnenforced(history, from)
    else EndedUnreleased(history, from, setup.value, spawned, report, lost)
  }

  lemma UnreleasedEarlier(history: seq<Row>, from: nat, at: nat, setup: WorkerSetup, spawned: Result<Worker>,
                          report: SetupReport, lost: bool)
    requires from <= at
    ensures EndedUnreleased(history, at, setup, spawned, report, lost) ==>
              EndedUnreleased(history, from, setup, spawned, report, lost)
  {
    LaterStarts(history, from, at, setup, report, lost);
    if spawned.Err? && EndedUnreleased(history, at, setup, spawned, report, lost) {
      var outcome :| EndedWith(history, at, outcome) && StartFailure(spawned.code, outcome);
      assert EndedWith(history, from, outcome);
    }
  }

  /** The admission of a queued run. */
  method Admit(store: Store, row: Row)
    requires HistoryOk(store.history) && row == Last(store.history) && row.status.Queued? && RowOk(row)
    modifies store`history
    ensures Active(store.history) && |store.history| == |old(store.history)| + 1
    ensures old(store.history) <= store.history && AdmittedAs(row, Last(store.history))
  {
    var next := row.(status := Running, phase := if row.kind.Land? then Preflight else Working);
    assert AdmitStep(row, next);
    HistoryGrows(store.history, next);
    store.history := store.history + [next];
  }

  // ---------------------------------------------------------------- observe

  /** A worker that this broker started, which still runs or has exited, or one of an earlier broker. */
  datatype Child = NotOurs | StillRunning | Exited(exit: int)

  /** The recorded worker is still there. */
  predicate WorkerThere(row: Row, table: Processes.Table) {
    row.worker.Some? && Processes.SameWorker(table, Some(row.worker.value.pid), Some(row.worker.value.token))
  }

  /** The recorded pid names some other process by now. */
  predicate WorkerReplaced(row: Row, table: Processes.Table) {
    row.worker.Some? && Processes.IdentityConflicts(table, Some(row.worker.value.pid), Some(row.worker.value.token))
  }

  predicate WorkerGone(row: Row, child: Child, table: Processes.Table) {
    child.Exited? || (child.NotOurs? && !WorkerThere(row, table))
  }

  /** The worker is gone, and its process group is in a control group, has drained, or lost its leader's number. */
  predicate MayEnd(row: Row, child: Child, table: Processes.Table, drained: bool) {
    && WorkerGone(row, child, table)
    && (CGROUP_BACKEND in row.state || drained || (child.NotOurs? && WorkerReplaced(row, table)))
  }

  /** The reason a failed publication is given. */
  function PublicationFailure(row: Row, gateFailed: bool, exit: int): Option<string> {
    if !Authored(row) then None
    else if row.kind.Land? && row.phase.Gating? && gateFailed then Some("gate-failed")
    else Some(match exit
              case 75 => "stale-main"
              case 76 => "head-changed"
              case 77 => "pr-not-ready"
              case 78 => "publish-failed"
              case 80 => "avoided-commit"
              case _ => "merge-error")
  }

  predicate Authored(row: Row) {
    row.kind.Merge? || row.kind.Land?
  }

  predicate HasObservation(row: Row, code: string) {
    exists i :: 0 <= i < |row.receipt.events| && row.receipt.events[i].code == code
  }

  /** The outcome of an exited worker nobody asked to stop. A landing worker's own report counts before its exit
      status. */
  function ExitOutcome(row: Row, gateFailed: bool, exit: int): Outcome {
    var observed := if row.kind.Land? && row.reported.Some? then row.reported.value else exit;
    if observed == 0 then Outcome(Passed, 0, None)
    else if HasObservation(row, "memory-oom") then Outcome(Broken, observed, Some("memory-oom"))
    else Outcome(Broken, observed, PublicationFailure(row, gateFailed, observed))
  }

  /** The outcome of a worker that is gone without an exit status. Only a landing's report survives that. */
  function LostOutcome(row: Row, gateFailed: bool): Outcome {
    if row.kind.Land? && row.reported.Some? then
      if row.reported.value == 0 then Outcome(Passed, 0, None)
      else Outcome(Broken, row.reported.value, PublicationFailure(row, gateFailed, row.reported.value))
    else
      Outcome(Interrupted, 125, Some("worker-result-lost"))
  }

  ghost predicate OutOfMemory(row: Row) {
    exists i :: 0 <= i < |row.receipt.events| && row.receipt.events[i].code == "memory-oom"
  }

  /** Every outcome the broker observes may be proposed. It is a success exactly for status 0, which a landing reports
      itself; otherwise the run is broken with the observed status, or interrupted when there is none. */
  lemma ObservedOutcomes(row: Row, gateFailed: bool, exit: int)
    ensures Proposable(ExitOutcome(row, gateFailed, exit)) && Proposable(LostOutcome(row, gateFailed))
    ensures var reported := row.kind.Land? && row.reported.Some?;
            var observed := if reported then row.reported.value else exit;
            var exited, gone := ExitOutcome(row, gateFailed, exit), LostOutcome(row, gateFailed);
            && (exited.status.Passed? <==> observed == 0) && exited.exit == observed
            && (observed != 0 ==> exited.status.Broken?)
            && (if reported then
                  gone.exit == observed && (gone.status.Passed? <==> observed == 0)
                      && (observed != 0 ==> gone.status.Broken?)
                else gone.status.Interrupted? && gone.exit == 125 && gone.failure == Some("worker-result-lost"))
    // A run out of memory is given that reason before any other, unless nobody saw it exit.
    ensures var exited := ExitOutcome(row, gateFailed, exit);
            exited.status.Broken? && OutOfMemory(row) ==>
              exited.failure == Some("memory-oom")
    ensures var exited := ExitOutcome(row, gateFailed, exit);
            exited.status.Broken? && !HasObservation(row, "memory-oom") ==>
              exited.failure == PublicationFailure(row, gateFailed, exited.exit)
    ensures var gone := LostOutcome(row, gateFailed);
            gone.status.Broken? ==> gone.failure == PublicationFailure(row, gateFailed, gone.exit)
  {
  }

  /** Each status that publication refuses with has its own reason, and a landing whose gate failed is told so. */
  lemma PublicationReasons(row: Row, gateFailed: bool, exit: int)
    ensures !(row.kind.Merge? || row.kind.Land?) ==> PublicationFailure(row, gateFailed, exit).None?
    ensures row.kind.Land? && row.phase.Gating? && gateFailed ==>
              PublicationFailure(row, gateFailed, exit) == Some("gate-failed")
    ensures (row.kind.Merge? || row.kind.Land?) && !(row.kind.Land? && row.phase.Gating? && gateFailed) ==>
              var reason := PublicationFailure(row, gateFailed, exit);
              && (reason == Some("stale-main") <==> exit == Forge.STALE_MAIN)
              && (reason == Some("head-changed") <==> exit == Forge.HEAD_CHANGED)
              && (reason == Some("pr-not-ready") <==> exit == Forge.NOT_READY)
              && (reason == Some("publish-failed") <==> exit == Forge.PUBLISH_FAILED)
              && (reason == Some("avoided-commit") <==> exit == Forge.AVOIDED)
              && (reason == Some("merge-error") <==>
                    exit !in {Forge.STALE_MAIN, Forge.HEAD_CHANGED, Forge.NOT_READY, Forge.PUBLISH_FAILED,
                              Forge.AVOIDED})
  {
    assert |"stale-main"| == 10 && |"head-changed"| == 12 && |"pr-not-ready"| == 12 && |"publish-failed"| == 14;
    assert |"avoided-commit"| == 14 && |"merge-error"| == 11;
    assert "head-changed"[0] != "pr-not-ready"[0] && "publish-failed"[0] != "avoided-commit"[0];
  }

  /** What the end of the worker says about a run. */
  function WorkerOutcome(row: Row, child: Child, gateFailed: bool): Outcome {
    if child.Exited? then ExitOutcome(row, gateFailed, child.exit) else LostOutcome(row, gateFailed)
  }

  /** The run ended as the end of its worker says of row `at`, in which everything had been given up, or, with a
      stop requested by the time of the ending transaction, as that request says. */
  ghost predicate EndsAsObserved(history: seq<Row>, from: nat, at: nat, child: Child, gateFailed: bool) {
    && from <= at < |history| - 1 && !child.StillRunning?
    && history[at].state == map[] && EndedAs(history[at], history, WorkerOutcome(history[at], child, gateFailed))
  }

  /** What looking after a run adds to its row: what both backends measured, and, when a stop is passed on, what those
      answered that had not been cancelled. */
  ghost predicate LookedAfter(before: Row, after: Row, answers: Answers, passOn: bool) {
    exists first, measured ::
      && UsageAdded(before.receipt, first, before.state, CGROUP_BACKEND, answers.cgroup)
      && UsageAdded(first, measured, before.state, QUOTA_BACKEND, answers.quota)
      && if passOn then PassedOn(measured, after.receipt, before.state) && AllMarked(before.state, after.state)
         else after.receipt == measured && after.state == before.state
  }

  /** From row `from` on the run was looked after. */
  ghost predicate WasLookedAfter(history: seq<Row>, from: nat, answers: Answers, passOn: bool)
    requires from < |history|
  {
    exists i :: from <= i < |history| && LookedAfter(history[from], history[i], answers, passOn)
  }

  /** When a run is ended: its worker has exited, or, started by an earlier broker, is not there; and its process group
      is in a control group, has drained, or, for that earlier worker, has lost its leader's number. */
  ghost predicate EndDue(run: Row, child: Child, table: Processes.Table, drained: bool) {
    match child
    case StillRunning => false
    case Exited(_) => CGROUP_BACKEND in run.state || drained
    case NotOurs =>
      !WorkerThere(run, table) && (CGROUP_BACKEND in run.state || drained || WorkerReplaced(run, table))
  }

  /** When a stop is passed on to what a run holds. */
  ghost predicate StopDue(run: Row, child: Child, table: Processes.Table) {
    run.cancelRequested
    && match child
       case NotOurs => WorkerThere(run, table)
       case _ => true
  }

  /** `observe`: a run ends only after its worker is gone, and then with everything given up. `answers` are what the
      backends measure. */
  method Observe(store: Store, run: Row, child: Child, table: Processes.Table, groupGone: bool, gateFailed: bool,
                 answers: Answers)
    returns (done: Result<()>, ghost at: nat)
    requires Active(store.history) && Undisturbed(run, Last(store.history))
    modifies store`history
    ensures HistoryOk(store.history) && old(store.history) <= store.history
    // A run ends only, and without an error always, when its worker is gone, and its group is managed or gone too.
    ensures !Live(Last(store.history)) ==> EndDue(run, child, table, groupGone)
    ensures done.Ok? && EndDue(run, child, table, groupGone) ==> Ended(store.history)
    // Unless a stop was requested, the outcome is that of a row read after everything was given up.
    ensures !Live(Last(store.history)) ==>
              EndsAsObserved(store.history, |old(store.history)| - 1, at, child, gateFailed)
    // Whatever is held is measured, and a requested stop is passed on to all of it.
    ensures done.Ok? && run.state != map[] ==>
              WasLookedAfter(store.history, |old(store.history)| - 1, answers, StopDue(run, child, table))
    ensures done.Ok? && StopDue(run, child, table) ==> !SomeUncancelled(Last(store.history).state)
    // A run that holds nothing and may not end yet is left alone.
    ensures run.state == map[] && !EndDue(run, child, table, groupGone) ==> store.history == old(store.history)
    ensures done.Err? ==> !store.reliable || Misreported(run, answers)
  {
    at := 0;
    var ends := MayEnd(run, child, table, groupGone);
    done := LookAfterHeld(store, run, child, table, answers);
    if done.Ok? {
      done, at := ObserveRest(store, run.state != map[], ends, child, gateFailed, |old(store.history)| - 1, answers,
                              StopDue(run, child, table));
    }
  }

  /** The end of a run that may end, after it was looked after. */
  method ObserveRest(store: Store, held: bool, ends: bool, child: Child, gateFailed: bool, ghost from: nat,
                     ghost answers: Answers, ghost passOn: bool)
    returns (done: Result<()>, ghost at: nat)
    requires Active(store.history) && (ends ==> !child.StillRunning?) && from < |store.history|
    requires !held ==> Last(store.history).state == map[]
    requires held ==> LookedAfter(store.history[from], Last(store.history), answers, passOn)
    requires passOn ==> !SomeUncancelled(Last(store.history).state)
    modifies store`history
    ensures HistoryOk(store.history) && old(store.history) <= store.history
    ensures !ends ==> done.Ok? && store.history == old(store.history)
    ensures done.Ok? && ends ==> Ended(store.history)
    ensures done.Ok? && passOn ==> !SomeUncancelled(Last(store.history).state)
    ensures done.Ok? && held ==> WasLookedAfter(store.history, from, answers, passOn)
    ensures !Live(Last(store.history)) ==> ends && EndsAsObserved(store.history, from, at, child, gateFailed)
    ensures done.Err? ==> !store.reliable
  {
    at := 0;
    done := Ok(());
    ghost var looked := |store.history| - 1;
    if ends {
      done, at := ObserveEnd(store, held, child, gateFailed);
    }
    if held {
      LookedThen(store.history, from, looked, answers, passOn);
    }
  }

  lemma LookedThen(history: seq<Row>, from: nat, i: nat, answers: Answers, passOn: bool)
    requires from <= i < |history| && LookedAfter(history[from], history[i], answers, passOn)
    ensures WasLookedAfter(history, from, answers, passOn)
  {
  }

  /** Look after the run if it holds anything. */
  method LookAfterHeld(store: Store, run: Row, child: Child, table: Processes.Table, answers: Answers)
    returns (done: Result<()>)
    requires Active(store.history) && Undisturbed(run, Last(store.history))
    modifies store`history
    ensures Active(store.history) && old(store.history) <= store.history
    ensures run.state == map[] ==> done.Ok? && store.history == old(store.history)
    ensures done.Ok? && run.state != map[] ==>
              LookedAfter(old(Last(store.history)), Last(store.history), answers, StopDue(run, child, table))
    ensures done.Ok? && StopDue(run, child, table) ==> !SomeUncancelled(Last(store.history).state)
    ensures done.Err? ==> !store.reliable || Misreported(run, answers)
  {
    done := Ok(());
    var there := child.StillRunning? || (child.NotOurs? && WorkerThere(run, table));
    if run.state != map[] {
      done := LookAfter(store, run.cancelRequested && (there || child.Exited?), answers);
    }
  }

  /** Measure what the run holds, and pass on a request to stop. */
  method LookAfter(store: Store, passOn: bool, answers: Answers) returns (done: Result<()>)
    requires Active(store.history)
    modifies store`history
    ensures Active(store.history) && old(store.history) <= store.history
    ensures SameRequest(old(Last(store.history)), Last(store.history))
    ensures done.Ok? ==> LookedAfter(old(Last(store.history)), Last(store.history), answers, passOn)
    ensures done.Ok? && passOn ==> !SomeUncancelled(Last(store.history).state)
    ensures done.Err? ==> !store.reliable || Misreported(old(Last(store.history)), answers)
  {
    done := Measure(store, answers);
    ghost var measured := Last(store.history);
    if done.Ok? && passOn {
      done := CancelHeld(store);
    }
    if done.Ok? {
      LooksAfter(old(Last(store.history)), measured, Last(store.history), answers, passOn);
    }
  }

  lemma LooksAfter(before: Row, measured: Row, after: Row, answers: Answers, passOn: bool)
    requires Captured(before, measured, answers)
    requires if passOn then PassedOn(measured.receipt, after.receipt, measured.state)
                            && AllMarked(measured.state, after.state)
             else after == measured
    ensures LookedAfter(before, after, answers, passOn)
    ensures passOn ==> !SomeUncancelled(after.state)
  {
    var first :| UsageAdded(before.receipt, first, before.state, CGROUP_BACKEND, answers.cgroup)
        && UsageAdded(first, measured.receipt, before.state, QUOTA_BACKEND, answers.quota);
    assert UsageAdded(first, measured.receipt, before.state, QUOTA_BACKEND, answers.quota);
  }

  /** Both measurements are in the receipt, and nothing else changed. */
  ghost predicate Captured(before: Row, after: Row, answers: Answers) {
    && after.state == before.state
    && exists first ::
         && UsageAdded(before.receipt, first, before.state, CGROUP_BACKEND, answers.cgroup)
         && UsageAdded(first, after.receipt, before.state, QUOTA_BACKEND, answers.quota)
  }

  method Measure(store: Store, answers: Answers) returns (done: Result<()>)
    requires Active(store.history)
    modifies store`history
    ensures Active(store.history) && old(store.history) <= store.history
    ensures SameRequest(old(Last(store.history)), Last(store.history))
    ensures done.Ok? ==> Captured(old(Last(store.history)), Last(store.history), answers)
    ensures done.Err? ==> !store.reliable || Misreported(old(Last(store.history)), answers)
  {
    var refreshed :- store.Load();
    done := store.CaptureUsage(refreshed, answers);
  }

  /** The worker and its group are gone. */
  method ObserveEnd(store: Store, held: bool, child: Child, gateFailed: bool)
    returns (done: Result<()>, ghost at: nat)
    requires Active(store.history) && !child.StillRunning?
    requires !held ==> Last(store.history).state == map[]
    modifies store`history
    ensures HistoryOk(store.history) && old(store.history) <= store.history
    ensures done.Ok? ==> Ended(store.history) && Last(store.history).state == map[]
    ensures !Live(Last(store.history)) ==>
              EndsAsObserved(store.history, |old(store.history)| - 1, at, child, gateFailed)
    ensures done.Err? ==> !store.reliable
  {
    at := 0;
    if held {
      done := FinishAll(store);
      if done.Err? {
        return;
      }
    }
    done, at := EndRun(store, child, gateFailed);
  }

  /** The row is read after everything was given up, and then again in the transaction that ends the run. */
  method EndRun(store: Store, child: Child, gateFailed: bool) returns (done: Result<()>, ghost at: nat)
    requires Active(store.history) && Last(store.history).state == map[] && !child.StillRunning?
    modifies store`history
    ensures HistoryOk(store.history) && old(store.history) <= store.history
    ensures done.Ok? ==> Ended(store.history) && Last(store.history).state == map[]
    ensures !Live(Last(store.history)) ==>
              EndsAsObserved(store.history, |old(store.history)| - 1, at, child, gateFailed)
    ensures done.Err? ==> !store.reliable
  {
    at := 0;
    var loaded := store.Load();
    if loaded.Err? {
      return Err(loaded.code), at;
    }
    at := |store.history| - 1;
    done := FinishObserved(store, loaded.value, child, gateFailed);
  }

  /** End the run as the end of its worker says. */
  method FinishObserved(store: Store, run: Row, child: Child, gateFailed: bool) returns (done: Result<()>)
    requires Active(store.history) && Last(store.history) == run && run.state == map[]
    modifies store`history
    ensures HistoryOk(store.history) && old(store.history) <= store.history
    ensures done.Ok? ==>
              && |store.history| > |old(store.history)| && Ended(store.history) && Last(store.history).state == map[]
              && EndedAs(run, store.history, WorkerOutcome(run, child, gateFailed))
    ensures done.Err? ==> Active(store.history) && !store.reliable
  {
    var outcome := if run.cancelRequested then RequestedStopOutcome(run) else WorkerOutcome(run, child, gateFailed);
    ObservedOutcomes(run, gateFailed, if child.Exited? then child.exit else 0);
    done := FinishRun(store, run, outcome);
    if done.Ok? {
      StopOverrides(run, store.history, outcome, WorkerOutcome(run, child, gateFailed));
    }
  }

  /** With a requested stop the proposed outcome does not count. */
  lemma StopOverrides(run: Row, history: seq<Row>, proposed: Outcome, other: Outcome)
    requires EndedAs(run, history, proposed) && (!run.cancelRequested ==> proposed == other)
    ensures EndedAs(run, history, other)
  {
  }

  // ---------------------------------------------------------------- stopping the broker

  /** A run that a stopping broker still asks to stop: whoever decides publication is left alone, and nobody is
      asked twice. */
  predicate Stoppable(row: Row) {
    && row.status.Running? && !row.cancelRequested
    && !row.kind.Merge? && !(row.kind.Land? && row.phase.Publishing?)
  }

  ghost predicate AllOk(histories: map<string, seq<Row>>) {
    forall id :: id in histories ==> HistoryOk(histories[id])
  }

  /** Exactly the stoppable runs are asked to stop, and no run is left that a second request would ask. */
  ghost predicate AllAskedToStop(before: map<string, seq<Row>>, after: map<string, seq<Row>>)
    requires AllOk(before) && AllOk(after)
  {
    && after.Keys == before.Keys
    && forall id :: id in before ==> AskedToStop(before[id], after[id]) && !Stoppable(Last(after[id]))
  }

  lemma InterruptionsAsk(histories: map<string, seq<Row>>)
    requires AllOk(histories)
    ensures var after := map id | id in histories :: AfterInterruption(histories[id]);
            AllOk(after) && AllAskedToStop(histories, after)
  {
    forall id | id in histories
      ensures HistoryOk(AfterInterruption(histories[id]))
      ensures AskedToStop(histories[id], AfterInterruption(histories[id]))
                && !Stoppable(Last(AfterInterruption(histories[id])))
    {
      InterruptionAsks(histories[id]);
    }
  }

  /** The rows of all runs, each with its history. */
  class Database {
    var histories: map<string, seq<Row>>

    ghost predicate Valid()
      reads this
    {
      AllOk(histories)
    }

    constructor (histories: map<string, seq<Row>>)
      requires AllOk(histories)
      ensures this.histories == histories && Valid()
    {
      this.histories := histories;
    }

    /** `request_interruption`: one statement over all rows. */
    method RequestInterruption() returns (requested: Result<()>)
      requires Valid()
      modifies this
      ensures Valid()
      ensures requested.Err? ==> histories == old(histories)
      ensures requested.Ok? ==> AllAskedToStop(old(histories), histories)
    {
      if * {
        return Err("broker-database-busy");
      }
      InterruptionsAsk(histories);
      histories := map id | id in histories :: AfterInterruption(histories[id]);
      return Ok(());
    }
  }

  /** A stoppable run is asked to stop with the broker's own reason, and nothing else of it changes; every other
      run is left as it is. */
  ghost predicate AskedToStop(before: seq<Row>, after: seq<Row>)
    requires before != []
  {
    var row := Last(before);
    after == if Stoppable(row) then before + [row.(cancelRequested := true, failure := Some(BROKER_STOPPED))]
        else before
  }

  function AfterInterruption(history: seq<Row>): seq<Row>
    requires history != []
  {
    var row := history[|history| - 1];
    if Interruption(row) == row then history else history + [Interruption(row)]
  }

  lemma InterruptionAsks(history: seq<Row>)
    requires HistoryOk(history)
    ensures AskedToStop(history, AfterInterruption(history)) && HistoryOk(AfterInterruption(history))
    ensures !Stoppable(Last(AfterInterruption(history)))
  {
    HistoryGrows(history, Interruption(Last(history)));
  }
}
