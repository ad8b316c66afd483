# AGCoord in Dafny

AGCoord is a machine-wide job broker with a landing protocol: it admits queued runs under shared
capacities, enforces their resource limits, and lands a pull request by gating one exact head and then
publishing exactly that head. This project models the parts of it that carry the promises, and proves
those promises for every input, every run and every interleaving the model admits.

`dafny verify dfyconfig.toml` checks everything.

| module | what it models |
|---|---|
| `Commits`, `Forge` | the commit graph, the remote refs with their whole history, one checkout, and everybody else who moves any of them between two observations |
| `Publication` | `execute` and `preflight`: publishing one exact gated head by a two-ref compare-and-swap |
| `Preparation` | `_synchronize_target` and `prepare`: merging an advanced target into the source, pushing it, and trying again |
| `Landing` | the landing job: avoided commits, preparation, gate, publication |
| `Scheduler` | lane selection and admission |
| `Runs` | the durable row of one run, every step that may change it, and theorems over its whole history |
| `ReceiptLog`, `Lifecycle`, `Broker` | the resource lifecycle, `start_worker`, `observe`, `finish_run` and `request_interruption` over that row |
| `Resources`, `Receipts` | bindings, stored contracts, backend state and receipts, with their JSON forms |
| `ProjectQuota` | crash-safe project-quota allocation, rollback and cleanup |
| `Recovery`, `RecoveryRuns` | guarded host recovery, step by step and over whole runs |
| `Rates` | sampled peak rates of cpu and io |
| `Processes` | process ancestry and group membership over one process table |
| `Hashing`, `Sha256` | the SHA-256 prefix against FIPS 180-4 |

How the model is built:

* State that the program updates in place is a class field, and each operation is a method whose
  postconditions say what the new state is. Where the state is large, the field holds one value
  (`Disk`, `State`, `Spool`, the history of a `Row`) and the theorems are lemmas about such values.
* Other actors are explicit. `Forge.World.Interfere` lets anybody do anything to refs, objects and
  checkout between any two observations; other landings are constrained only by being instances of the
  same protocol, every other writer not at all. `quiet` says that nobody else touches this checkout; what
  is proved about the checkout assumes it, what is proved about the remote does not.
* Failing commands are explicit too. `reliable` says that no local command, no question about the remote and no
  callback fails, or, of a `Lifecycle.Store`, that the database does not and that backends report what fits the
  run. Everything holds without it, except that then a refusal or an error may have no other cause.
* What a caller heard and did is part of `Forge.State`: `heard` holds every answer about the remote, `acts`
  everything the caller did and in which order, and `mine` the moments at which it moved a ref. Each
  operation of `Forge.World` appends exactly its own entries. "The target" of a request is always the base
  that an answer heard in the same call named for it, and the contracts of the protocol say exactly which
  entries a call adds, so a call that moved a ref, skipped its gate or checked another target would break them.
* A crash is a budget of durable writes in `ProjectQuota`, and simply the end of a broker in `Runs` and
  `RecoveryRuns`: a history covers any number of brokers one after the other.
* A transaction is one step. Answers of the forge, of Git, of backends, of workers and of callbacks are
  nondeterministic choices or parameters.

What turned out to be different from the plain statement of a property:

* **Avoided commits.** A published target reaches an avoided commit exactly when the candidate itself is
  one (`LandedTargetAvoids`). That can happen when the forge hands back the very merge commit that was removed:
  `AvoidedCandidateLands` gives the commits. No check looks at the candidate.
* **Exit status of a publication.** An update that took effect is reported as success exactly when the
  reply arrived or the one re-read still saw the candidate (`Execute`). In the other case either the re-read
  failed too, and then nobody else need have done anything (`LostReplyIsRefused` gives the states), or somebody
  else moved the target in between (`UnconfirmedLanding`).
* **Restoring the checkout.** When the refs are read again after the merge and a ref is missing, or the
  reading fails, the merge stays in the checkout although the synchronization is refused
  (`src/agcoord/github.py:566` and `src/agcoord/github.py:594` may raise before any restore); `MergeCanStay` gives
  the states. After every refusal of `Synchronize` the checkout is on its branch, at the old head exactly when no
  merge stands in the record of what was done (`Stands`), and but for status 79 it is then exactly as it was. Once a
  merge was tried, status 77 always leaves it, 76 leaves it exactly when the last look was refused so, 79 may leave
  it, and no other status does.
* **Receipt history.** `prepare_worker_setup` saves twice from one reading of the row, so a failure of both halves
  would lose the first half's events. `OneProvider` shows the two halves exclude each other, because a contract
  names at most one scratch provider.
* **Attachment failure.** When attaching to one backend fails and that backend was best effort, everything is
  given up, and yet `start_worker` goes on. What `MayRelease` promises is therefore a statement about the receipt:
  the names stay applied there although the record of their backend may be gone (`ReleasedUnheld` gives such a row).
* **Peak rates.** Samples with no elapsed time drop their growth (`StoppedClockLosesGrowth`) and a clamped io
  rate bounds nothing (`ClampLosesTraffic`). `PeakBoundsTotal` and `PeakBoundsTraffic` count the first as
  `Unrated` growth and exclude the second; the cpu clamp never takes effect (`ProcessorRateFits`).
* **Removing a directory.** Cleanup removes only the recorded directory. A rollback does too, once one is recorded;
  before that it removes whatever stands at the path of the allocation, a directory with files in it included, that
  made the allocation fail (`CollisionIsRemoved`). The path ends in a fresh random token.
* **Unfinished starts.** `start_worker` leaves a run running, without a worker, when its log cannot be opened, when
  its row names a worker already, or when the worker's report cannot be recorded; the last happens after a best-effort
  attachment failed, because the setup then fits nothing that is held (`UnrecordableSince`).
* **Quota resume.** A complete resumed `prepare` ends ready if the directory the tree starts with fits into the
  limits, and otherwise fails (`ResumeDecides`, with `DirectoryFits` as the condition); `DirectoryTooLarge` gives a
  state and a granted policy of one block for which it can never be resumed.

## Model

| member | source | states |
|---|---|---|
| Commits.AncestorsAreLocal | src/agcoord/avoid.py:170-197 | a repository closed under ancestry has every ancestor of what it has, so an unknown avoided commit is unreachable |
| Commits.MergeReaches | src/agcoord/github.py:858-867 | a merge commit reaches itself and exactly what its two parents reach |
| Forge.TargetKeepsEverything | src/agcoord/github.py:869-884 | over any history of landings, pushes and fast-forwarding outsiders, every commit the target ever held stays in it |
| Forge.World.RemoteRefs | src/agcoord/github.py:241-280 | one observation of both refs at one instant, as they are then; status 77 exactly for a missing target and 76 exactly for a missing required branch |
| Forge.World.IsAncestorLocally | src/agcoord/github.py:308-318 | exact ancestry for a local descendant, and never a false positive |
| Forge.World.UpdateRefs | src/agcoord/github.py:869-884 | the update takes effect only if both refs still hold the named values, as one landing; its precondition is the exact gated tree, the ordered parents and the ancestry of the target; the caller's record gains exactly this call and the moment it moved the refs |
| Forge.World.Push | src/agcoord/github.py:581-592 | the branch moves only from the leased head, to the merge, at one instant; the caller's record gains exactly this push, whether its reply arrived, and its moment |
| Publication.SomebodyMovedTheTarget | src/agcoord/github.py:885-911 | when a landing took effect and a later look sees another target, there is an instant at which somebody else moved it |
| Publication.UnconfirmedLanding | src/agcoord/github.py:885-911 | a refused publication that took effect, and whose re-read succeeded, was overtaken at an instant in between |
| Publication.LostReplyIsRefused | src/agcoord/github.py:885-911 | states in which an update took effect, nobody else moved the target, and yet the publication is refused because the re-read failed as well |
| Publication.ReadPullRequest | src/agcoord/github.py:197-238 | at most 15 waits, and waiting only while the forge names the replaced head; the answer returned is what the last one heard means |
| Publication.CheckCheckout | src/agcoord/github.py:685-718 | passes exactly, while nobody else touches it and no command fails, on the request branch at the gated head without local changes |
| Publication.Validate | src/agcoord/github.py:644-832 | already landed means that at some instant of the call the target that the accepted answer named held the head; publishable means that at one instant the branch was the head and that target was in it; every verdict and every refusal is what the call, the checkout, the answers and the one look at the refs say (`Found`) |
| Publication.ReadyIsNotHeld | src/agcoord/github.py:766-832 | the two findings differ: a request that may be published and whose target does not hold the head |
| Publication.CompareRefs | src/agcoord/github.py:766-832 | one look at both refs of the named target, and for every comparison of what it saw with the head exactly the verdict or the refusal status |
| Publication.VerdictMeans | src/agcoord/github.py:766-832 | what each accepting verdict says about the target that the answer named |
| Publication.MakeCandidate | src/agcoord/github.py:834-867 | only a commit with exactly the gated tree and the parents target and head, in that order, is accepted |
| Publication.MoveTarget | src/agcoord/github.py:869-911 | success exactly when the reply arrived or the re-read saw the candidate; otherwise, of the refs at the moment of the one look: 75 exactly when the target is neither the candidate nor the old one, 76 exactly when it is the old one and the branch is not at the head, 78 exactly when both are as they were; nothing else was done |
| Publication.Execute | src/agcoord/github.py:622-922 | status 0 means the target that the forge named held the gated head at some instant of the call; exactly what the call did: at most one commit made and one update tried, whose status is decided by the reply or by the refs at the moment of the re-read, status by status; where nothing was changed, the checks decide the status; whatever took effect is one landing of exactly this head; a preflight does nothing and stops only where publication could go on |
| Preparation.RestoreCompletedMerge | src/agcoord/github.py:326-364 | on success the checkout is at the old head again; it refuses, and leaves, a checkout that is no longer the clean merge |
| Preparation.BeforeMerge | src/agcoord/github.py:379-443 | the checkout, the accepted answer and one instant of both refs of the target it names agree on the head, and nothing was done; each refusal is what the checkout, the answer or the look says |
| Preparation.MergeTarget | src/agcoord/github.py:457-555 | only one clean merge commit with parents head and target, in that order, is accepted; a refused one is undone unless a command fails or it left changes |
| Preparation.CheckAvoided | src/agcoord/github.py:557-565 | passes only a merge that reaches no avoided commit, and refuses with status 80 only one that does, with the checkout restored |
| Preparation.BeforePush | src/agcoord/github.py:566-579 | one look decides: it passes exactly when the branch is at the head and the target is the one merged; a moved branch is 76 and a moved target 75, and the old head is put back; with a ref that is gone the merge stays, and that ref was absent at an instant of the call |
| Preparation.PushMerge | src/agcoord/github.py:581-608 | exactly one push of this merge; a reply is success, and without one a single look decides: the merge is success, the old head 78, anything else 76; what a refusal leaves in the checkout |
| Preparation.Synchronize | src/agcoord/github.py:367-619 | the result is the head itself with the named target in it, or a pushed merge of head and that target that reaches no avoided commit; exactly which acts it made, at most one push, and none for status 75 or 80; each status is what the answer and the looks before and after the merge say; after every refusal the checkout is at the old head if and only if no merge stands |
| Preparation.MergeCanStay | src/agcoord/github.py:566-579 | states of a refused synchronization, with the request branch gone, whose checkout stays at the merge |
| Preparation.HeadChainReaches | src/agcoord/github.py:1011-1036 | the effective head reaches the submitted head through first parents, and never equals the head it replaced |
| Preparation.Follow | src/agcoord/github.py:1011-1036 | one synchronization of exactly the head reached so far adds at most one recorded change, and none when the record refused it; a refusal is what the synchronization says or a failed record; what it leaves in the checkout |
| Preparation.Preflight | src/agcoord/github.py:925-963 | begins one check and does nothing else: no commit, no ref, no checkout; passes only for a head that may be published onto the named target, or is in it already, at some instant; its status is the one the checks of `execute` give |
| Preparation.Prepare | src/agcoord/github.py:966-1044 | exactly the checks refused with 75 are each followed by a synchronization, and the status is that of the last round; with synchronization allowed, 75 is returned only after the fifth check or by a synchronization; the acts of the whole call, each allowed by the one before: at most 5 checks and 4 synchronizations, each of the head reached so far, every push inside one of them and onto that head, every record right after the push of the recorded head, and no publication; it moved refs exactly at the moments its pushes name; the recorded changes chain from the submitted head to the returned one; where a refusal leaves the checkout |
| Preparation.PushesAreSynchronized | src/agcoord/github.py:1011-1036 | at most one push for each begun synchronization |
| Landing.ReachableAvoided | src/agcoord/avoid.py:170-197 | exact: some avoided commit is an ancestor of the revision |
| Landing.AvoidedRefusal | src/agcoord/land.py:228-293 | passing means the local head reaches no avoided commit, and, while nobody else uses the checkout, that the target which the answer of this call named reached none at some instant of it; 80 means that one of them does, and 79 that the answer named no target or, if nothing fails, that the target was absent |
| Landing.LandedTargetAvoids | src/agcoord/land.py:199-225 | a landed target reaches an avoided commit if and only if the candidate is that commit, however the target moved after the check |
| Landing.AvoidedCandidateLands | src/agcoord/land.py:199-225 | commits for which every check passes and an avoided commit becomes the target |
| Landing.GateHead | src/agcoord/land.py:168-197 | the gate runs to status 0 on exactly the prepared head, or the receipt for it stands for the gate exactly when it covers the head and may be reused; a reported red gate is the exit status, and otherwise only a failed callback ends it |
| Landing.PublishedIsGated | src/agcoord/land.py:168-225 | behind every update of the target lie the preflight of exactly the published head, its green gate and the step to publishing, in this order; nothing was merged, pushed or recorded after that preflight, and there is no other update |
| Landing.RanksRise | src/agcoord/land.py:105-225 | a landing never goes back to an earlier part of its order |
| Landing.GatedIsLate | src/agcoord/land.py:168-225 | after its green gate a landing does not return to its preparation |
| Landing.Publish | src/agcoord/land.py:199-225 | what is published was checked for avoided commits after the gate, and the step to publishing was made first |
| Landing.Land | src/agcoord/land.py:105-225 | everything the landing did, act by act: each is allowed by the one before it, so an update is tried only after the green gate of exactly the published head; the refs it moved, exactly at the moments its acts name, are the request branch and then at most once the target; the head holds the submitted one by the recorded merges; status 0 means that the named target held the head at some instant; the exit is what the last thing done, and what was heard of it, says (`EndSays`), from the check for avoided commits to the re-read after an update |
| Scheduler.AdmissionKeepsValid | native/agcoord-broker/src/broker.rs:519-552 | starting an unblocked run keeps capacities and barriers intact, so `validate_active` cannot fail on it |
| Scheduler.FinishKeepsValid | native/agcoord-broker/src/broker.rs:519-552 | ending any active run keeps them intact |
| Scheduler.ConflictsMean | native/agcoord-broker/src/store.rs:1678-1743 | conflicts are symmetric and stay in one repository; two plain runs never conflict, two barriers always, and a barrier and a plain run exactly in one worktree |
| Scheduler.OtherLanesOnlyAllocate | native/agcoord-broker/src/store.rs:1678-1743 | a run of another repository changes nothing while queued, and while active blocks exactly through what it has allocated |
| Scheduler.Lanes.CollectHeads | native/agcoord-broker/src/broker.rs:599-610 | the heads are in submission order, one for each lane, unblocked, and cover every unblocked run |
| Scheduler.HeadsAreFirst | native/agcoord-broker/src/broker.rs:599-610 | a run is a head if and only if it is the first unblocked run of its lane |
| Scheduler.RotationSelects | native/agcoord-broker/src/broker.rs:611-616 | rotating the heads selects the earliest head after the last repository, or the earliest of all |
| Scheduler.Lanes.NextAdmissible | native/agcoord-broker/src/broker.rs:599-617 | the selected run is the one the selection rule names, and none exactly when everything is blocked |
| Scheduler.Lanes.Admit | native/agcoord-broker/src/broker.rs:570-591 | one admission updates the last repository and keeps the active set valid |
| Scheduler.LandsKeepOrder | native/agcoord-broker/src/store.rs:1678-1743 | no selected run passes an earlier one of its lane that it conflicts with |
| Scheduler.IdleBrokerAdmits | native/agcoord-broker/src/broker.rs:599-617 | an idle broker with satisfiable queued work admits something |
| Scheduler.PatienceDrops | native/agcoord-broker/src/broker.rs:611-616 | each selection that passes a waiting run raises the last repository or takes an earlier run, and lowers its patience |
| Scheduler.BypassWithinPatience | native/agcoord-broker/src/broker.rs:570-617 | a run is passed at most as often as its patience says |
| Scheduler.BoundedBypass | native/agcoord-broker/src/broker.rs:570-617 | over R repositories, a waiting run with e earlier queued runs is passed fewer than R * (e + 1) times |
| Runs.NewRowOk | native/agcoord-broker/src/store.rs:2684-2732 | a submitted row satisfies the row invariant if and only if its contract names at most one scratch provider |
| Runs.StepKeepsRowOk | native/agcoord-broker/src/broker.rs:776-819 | every client step and every broker step keeps the row invariant |
| Runs.RowAlwaysOk | native/agcoord-broker/src/broker.rs:1390-1414 | the invariant, with it the valid receipt, holds throughout any history |
| Runs.ReceiptHistory | native/agcoord-broker/src/broker.rs:1301-1414 | over any history `requested` is constant, saved events only extend the earlier ones, no peak falls, and the receipt is valid |
| Runs.EndedIsFinal | native/agcoord-broker/src/broker.rs:776-819 | an ended run holds no backend state and its row never changes again |
| Runs.StopDecidesTheOutcome | native/agcoord-broker/src/broker.rs:2243-2249 | from the moment a stop is requested the run can only end with exactly the requested outcome |
| Runs.StopOutcomes | native/agcoord-broker/src/broker.rs:2243-2249 | a stop of the broker interrupts with 125 as broker-stopped, any other one cancels with 130, and without one the proposed outcome stands |
| Runs.PublicationDecides | native/agcoord-broker/src/broker.rs:2219-2240 | a running merge, or a land that is publishing, is never cancelled and never ends as broker-stopped |
| ReceiptLog.Record | native/agcoord-broker/src/broker.rs:1240-1264 | exactly one event for each name is appended, and the receipt stays valid |
| ReceiptLog.MergeMeasurement | native/agcoord-broker/src/broker.rs:1301-1388 | every applied peak becomes the larger of the two and no other peak changes; the observations of applied resources that are not on record yet are added, and nothing else; an error exactly for an invalid measurement |
| ReceiptLog.ObservationsOnce | native/agcoord-broker/src/broker.rs:1365-1386 | what is added are new observations of applied resources, each once, and afterwards every such observation is on record |
| Lifecycle.ProbeBindings | native/agcoord-broker/src/broker.rs:1469-1511 | exactly the enforced resources without an issue are eligible, each issue is on record once in order, and it fails exactly when a required resource has one |
| Lifecycle.PrepareAll | native/agcoord-broker/src/broker.rs:1513-1588 | every backend with eligible names is asked once and its answer is on record; it is held exactly when it could prepare, with exactly its eligible names, and it fails exactly when one with something required could not |
| Lifecycle.CleanUp | native/agcoord-broker/src/broker.rs:1416-1467 | every record is given up whatever the backends answer, with exactly one cleanup event for each name that each backend held |
| Lifecycle.OneProvider | native/agcoord-broker/src/broker.rs:907-1027 | a run that holds a quota holds no tmpfs, so the two saves from one reading never both happen |
| Lifecycle.AttachAll | native/agcoord-broker/src/broker.rs:1730-1824 | both backends are attached whatever the first answers; what attachment applies gets what was requested and one event each, or every held name fails once; without a failure of a backend that holds something required, every required attachment is applied |
| Lifecycle.CancelAll | native/agcoord-broker/src/broker.rs:1598-1652 | every backend that was not cancelled is asked, its answer is on record for each held name, and every record is marked; something is saved exactly when one was not cancelled before |
| Lifecycle.ApplySetup | native/agcoord-broker/src/broker.rs:1029-1133 | succeeds exactly when the reported setup fits what is held; a tmpfs applies its size to tmpfs resources and its inodes to the others, a quota what was requested, each with one event, and never two providers |
| Lifecycle.EverythingApplied | native/agcoord-broker/src/broker.rs:1029-1133 | attachment and setup together apply every required resource |
| Lifecycle.RefuseSetup | native/agcoord-broker/src/broker.rs:1135-1238 | each affected resource fails once under the code: the scratch of a control group, or all of it and no longer applied for a problem of the namespace, and a quota, no longer applied; fatal exactly with a quota, such a problem or required scratch |
| Lifecycle.FailuresOnRecord | native/agcoord-broker/src/broker.rs:1265-1290 | which events on record count as a failed measurement with a code, and which as a failed cleanup |
| Lifecycle.Store.Save | native/agcoord-broker/src/broker.rs:1390-1414 | a save of a grown receipt; the invalid-receipt error cannot fire |
| Lifecycle.Store.PrepareResources | native/agcoord-broker/src/broker.rs:1469-1596 | either every required resource is held, freshly, by its backend, or nothing is held; every issue and every answer is on record, and it fails exactly when one of them concerns something required |
| Lifecycle.Store.PrepareWorkerSetup | native/agcoord-broker/src/broker.rs:907-1027 | when it says ready, everything required is still held and all required scratch has its space; a tmpfs or quota that cannot be used fails once for each of its resources on record, a quota is cleaned up, and it is not ready exactly when that was required or the cleanup failed |
| Lifecycle.Store.CancelResources | native/agcoord-broker/src/broker.rs:1598-1652 | every backend not cancelled yet was asked and its answer is on record; the durable state after cancelling; applied resources stay applied |
| Lifecycle.Store.CaptureUsage | native/agcoord-broker/src/broker.rs:1654-1728 | what each backend answered is in the receipt, as a merged measurement or as one failure of each held name where that is new; measuring changes neither what is held nor what is applied |
| Lifecycle.Store.AttachResources | native/agcoord-broker/src/broker.rs:1730-1847 | fails exactly when a backend fails that holds something required; every answer is on record; without a failure everything is still held, and with one everything was asked to cancel, cleaned up and given up |
| Lifecycle.Store.FinishAndCleanup | native/agcoord-broker/src/broker.rs:1849-1917 | on success nothing is held; the receipt has each backend's last measurement, one finish event and one cleanup event of each held name, and nothing else is added |
| Lifecycle.Store.RecordWorkerSetup | native/agcoord-broker/src/broker.rs:1029-1133 | after it every required resource is applied; exactly the reported space is applied, each with one event; without a failing database it is refused exactly when the report does not fit |
| Lifecycle.Store.RecordWorkerSetupFailure | native/agcoord-broker/src/broker.rs:1135-1238 | the failure of everything it concerns is on record; fatal exactly with a quota, a problem of the namespace or required scratch, and otherwise every required resource stays applied |
| Broker.FinishRun | native/agcoord-broker/src/broker.rs:776-819 | the row read in the ending transaction, on which only clients had acted, ends with the proposed outcome, or with exactly the requested one when a stop was requested by then; another worker's row is left alone |
| Broker.VerifyAndRelease | native/agcoord-broker/src/broker.rs:2102-2180 | a release needs a recorded setup, or a recorded failure that is not fatal, and nobody who asked to stop; otherwise the run ends, cancelled first, with the outcome that the report, a lost release or the requested stop gives; an error without a failing database is exactly a report that cannot be recorded |
| Broker.Release | native/agcoord-broker/src/broker.rs:2156-2178 | nobody had asked to stop when the worker was released; otherwise what was held is cancelled and the run ends as the requested stop, or as a lost handshake |
| Broker.AbandonSetup | native/agcoord-broker/src/broker.rs:2111-2139 | a worker that breaks off ends the run with its own code, or, with a quota whose failure is recorded first, as an enforcement failure; what was held is cancelled |
| Broker.ReleasedUnheld | native/agcoord-broker/src/broker.rs:1730-1847 | a valid running row that may be released although nothing of what it requires is held any more |
| Broker.StartWorker | native/agcoord-broker/src/broker.rs:1919-2181 | a worker is released only with every required resource in the applied part of the receipt, still held unless an attachment failed, what its report adds on record, and nobody asking to stop; every other ordinary exit of a queued run ended it with nothing held and the outcome that the spawn, the enforcement on record, the report, a lost release or a requested stop gives; what can leave it unfinished is named; a run that is not queued is left alone |
| Broker.ObservedOutcomes | native/agcoord-broker/src/broker.rs:654-719 | success is observed exactly for status 0, of a landing's own report where it has one; otherwise the run is broken with the observed status, out of memory before any other reason, or interrupted with 125 when nobody saw a status |
| Broker.PublicationReasons | native/agcoord-broker/src/broker.rs:74-89 | each status that publication refuses with has its own reason, and a landing whose gate failed is told so |
| Broker.Observe | native/agcoord-broker/src/broker.rs:619-725 | whatever is held is measured, each answer on record, and a requested stop is passed on to all of it; a run ends only after its worker is gone and, without a control group, its process group too, and without an error it then always ends; its outcome is the one that the end of the worker gives a row of the history in which everything had been given up, or the requested one when a stop was requested by the ending transaction |
| Broker.LookAfter | native/agcoord-broker/src/broker.rs:619-634 | both backends' answers are in the receipt between two rows of the call, and a stop that is passed on leaves no backend uncancelled |
| Broker.Database.RequestInterruption | native/agcoord-broker/src/broker.rs:2219-2240 | over all rows, exactly the running runs that do not decide publication and were not asked to stop before are asked to stop, with the broker's reason; every other row is left alone, and none is left to ask |
| Resources.BindingRoundTrip | native/agcoord-broker/src/resources.rs:42-79 | every valid binding is parsed back from its JSON form |
| Resources.ModesSpelled | native/agcoord-broker/src/resources.rs:244-256 | each mode is spelled by exactly its own text |
| Resources.NamesAndCodes | native/agcoord-broker/src/resources.rs:170-190 | a name or code begins with a small letter and has at most 64 characters, small letters, digits and the marks of its kind |
| Resources.UnitsOfKinds | native/agcoord-broker/src/resources.rs:188-210 | bytes measure five kinds, and every other unit belongs to one |
| Resources.ParsedBindingIsCanonical | native/agcoord-broker/src/resources.rs:212-292 | whatever parses is a valid binding |
| Resources.ParseBindings | native/agcoord-broker/src/resources.rs:212-292 | succeeds exactly when every entry parses, with exactly the parsed entries |
| Resources.BindingsRoundTrip | native/agcoord-broker/src/resources.rs:294-301 | `parse_bindings(bindings_value(b))` is `b` for all valid bindings |
| Resources.ParseBackendState | native/agcoord-broker/src/resources.rs:81-123 | succeeds exactly for well-formed records whose resources are not shared |
| Resources.ParsedRecordIsValid | native/agcoord-broker/src/resources.rs:81-123 | whatever parses as a record is valid, with the same names |
| Resources.StateRoundTrip | native/agcoord-broker/src/resources.rs:125-142 | `parse_backend_state(backend_state_value(s))` is `s` for every valid state |
| Resources.SortSorts | native/agcoord-broker/src/resources.rs:81-123 | the names of a record come out sorted, the same names |
| Resources.TwoScratchKinds | native/agcoord-broker/src/resources.rs:394-417 | more than one scratch kind is counted exactly when storage and tmpfs are combined |
| Resources.ResourceContract | native/agcoord-broker/src/resources.rs:394-417 | refused exactly when two scratch providers are combined, and otherwise the binding of every requested resource |
| Resources.ContractRoundTrip | native/agcoord-broker/src/resources.rs:394-417 | the stored contract parses back to the bindings it records |
| Resources.CapabilityIssue | native/agcoord-broker/src/resources.rs:524-553 | no issue exactly when the backend is available and supports the kind, the unit and the whole lifecycle |
| Resources.CapabilityIssueIsCode | native/agcoord-broker/src/resources.rs:524-553 | every issue is a valid event code |
| ProjectQuota.SelectPolicy | native/agcoord-broker/src/project_quota.rs:859-888 | finds the policy a request grants, and fails exactly when there is none |
| ProjectQuota.PolicyIsUnique | native/agcoord-broker/src/project_quota.rs:859-888 | a request grants at most one policy |
| ProjectQuota.Backend.AllocateProject | native/agcoord-broker/src/project_quota.rs:1167-1193 | the chosen project is free of manifests and of quota; failure means none of the candidates was |
| ProjectQuota.Backend.CompleteManifest | native/agcoord-broker/src/project_quota.rs:1195-1282 | from any staged state it ends ready with the limits enforced exactly when the directory fits, and a crash leaves a staged state; a recorded directory that was replaced, and one that stands in the way of a new one, is left alone |
| ProjectQuota.Backend.Rollback | native/agcoord-broker/src/project_quota.rs:1284-1327 | undoes an interrupted allocation, touching no other run and no directory with other numbers than the recorded ones, and a crash leaves a state it can resume; limits that a write took away were the recorded ones while nothing was charged to the project |
| ProjectQuota.Backend.Prepare | native/agcoord-broker/src/project_quota.rs:1329-1355 | a returned handle is enforced; resuming from any crash keeps project, token and path, and a failure leaves nothing; a recorded directory is touched only if it is still that one; other runs' manifests and limits are unchanged, and the own limits are only taken away as recorded and unused; projects stay distinct |
| ProjectQuota.PrepareThroughCrashes | native/agcoord-broker/src/project_quota.rs:1195-1355 | any number of crashes followed by one complete run ends ready with the allocation the first manifest named, and a handle with the limits of the policy |
| ProjectQuota.ResumeDecides | native/agcoord-broker/src/project_quota.rs:1195-1282 | a complete run from any resumable state ends ready if and only if the directory fits into the limits, and otherwise fails |
| ProjectQuota.DirectoryTooLarge | native/agcoord-broker/src/project_quota.rs:1195-1282 | a resumable state with a granted policy into which the directory does not fit |
| ProjectQuota.CollisionIsRemoved | native/agcoord-broker/src/project_quota.rs:1195-1327 | until a directory is recorded, whatever stands at its path is removed by the call that the collision fails |
| ProjectQuota.CollisionExists | native/agcoord-broker/src/project_quota.rs:1204-1221 | a state in which a directory with files in it stands there |
| ProjectQuota.Backend.ClearQuota | native/agcoord-broker/src/project_quota.rs:1284-1327 | the one write that takes limits away, with what was charged to the project at that moment on record: nothing |
| ProjectQuota.Backend.Retire | native/agcoord-broker/src/project_quota.rs:1284-1327 | limits that are gone were the recorded ones and were taken away by one write while nothing was charged; the manifest goes only with no directory and no limits left |
| ProjectQuota.Backend.Resolve | native/agcoord-broker/src/project_quota.rs:1357-1393 | a handle resolves to the manifest that recorded it, or, where no path is required, to nothing left; with a required path its directory is the recorded one |
| ProjectQuota.Backend.VerifyEnforcement | native/agcoord-broker/src/project_quota.rs:1395-1413 | succeeds exactly, on a healthy machine, when limits and attributes are those of the handle |
| ProjectQuota.Backend.ScratchPath | native/agcoord-broker/src/project_quota.rs:1415-1422 | a path is given only for a ready, enforced directory |
| ProjectQuota.Backend.Cleanup | native/agcoord-broker/src/project_quota.rs:1485-1538 | resumable after a crash at any point; nothing but the recorded directory of the named allocation, closed and with everything still in force, is removed or emptied, and before that the manifest says so; it waits for charges to go; the manifest goes last, after tree and quota; an error keeps it as that of the same allocation, so projects stay distinct; limits are only taken away as recorded and unused |
| ProjectQuota.Backend.RemoveRecorded | native/agcoord-broker/src/project_quota.rs:1494-1507 | nothing is changed unless the directory is the recorded one, closed, with limits and attributes in force |
| ProjectQuota.ChecksMean | native/agcoord-broker/src/project_quota.rs:979-1163 | what the checks on a manifest, a handle and a directory accept, field by field |
| ProjectQuota.CleanupThroughCrashes | native/agcoord-broker/src/project_quota.rs:1485-1538 | any number of crashes followed by complete runs leaves no tree, a default quota and no manifest |
| ProjectQuota.Serve | native/agcoord-broker/src/project_quota.rs:1329-1538 | over any sequence of prepare and cleanup calls of any runs, on any machine and with any crashes, manifests keep pairwise distinct projects, and a run that is not called keeps its manifest |
| ProjectQuota.ReadyIsCleanable | native/agcoord-broker/src/project_quota.rs:1485-1538 | what a run leaves of its ready directory within the limits can be cleaned up |
| ProjectQuota.DistinctKept | native/agcoord-broker/src/project_quota.rs:1167-1193 | manifests keep pairwise distinct project ids |
| Recovery.Store.Prepare | native/agcoord-broker/src/recovery.rs:297-356 | succeeds exactly when the record is consistent, the workers are gone, the helper is readable, an active recovery is for the same one, and a drained spool has nothing live; then a new guarded recovery that keeps the drain it found, or the active one unchanged |
| Recovery.Store.FilterQueued | native/agcoord-broker/src/recovery.rs:366-379 | what stays of the queue, in its order: everything without a recovery, and otherwise only the recorded proof while verifying |
| Recovery.Store.SubmitProof | native/agcoord-broker/src/recovery.rs:381-446 | exactly when it is acceptable: the proof that still stands, or one new proof while attempts are left and nothing runs; without one left it parks; nothing else |
| Recovery.Store.Complete | native/agcoord-broker/src/recovery.rs:448-539 | with an active recovery it completes exactly when that recovery is verifying, its proof holds, the owner is live, the helper is unchanged and nothing runs; what it reports is the marker that is back, or none; afterwards it repeats exactly while that is possible |
| Recovery.Store.Park | native/agcoord-broker/src/recovery.rs:541-561 | exactly for this active recovery and a valid reason: a running proof is asked to stop, a queued one cancelled with 130, no other row changes, and it parks |
| Recovery.RecordMeans | native/agcoord-broker/src/recovery.rs:148-179 | a stored recovery is consistent exactly when marker, guards and record agree |
| Recovery.ProofMeans | native/agcoord-broker/src/recovery.rs:381-520 | a proof holds exactly when it passed with status 0 and its one unit was applied and used |
| Recovery.IdentitiesMean | native/agcoord-broker/src/recovery.rs:22-28 | a recovery identity is exactly its prefix and twelve hexadecimal digits, and a digest 64 of them |
| RecoveryRuns.StepKeepsInv | native/agcoord-broker/src/recovery.rs:148-561 | every command, admission, crash and outside step keeps the recovery invariant |
| RecoveryRuns.OnlyTheProofBegins | native/agcoord-broker/src/broker.rs:570-591 | during a recovery the only run that goes from queued to running is the recorded proof, although the broker reads, filters and starts in three transactions |
| RecoveryRuns.OneLiveProof | native/agcoord-broker/src/recovery.rs:402-443 | proofs inserted equal attempts, at most three, and all but the last have ended |
| RecoveryRuns.GuardsFollowTheMarker | native/agcoord-broker/src/recovery.rs:148-179 | all guards are present exactly with the marker, in every state |
| RecoveryRuns.ExhaustedIsFinal | native/agcoord-broker/src/recovery.rs:412-423 | parked after three attempts no step leaves that state, and nothing is admitted again |
| RecoveryRuns.OtherRowsStay | native/agcoord-broker/src/recovery.rs:297-561 | no recovery command changes an existing row other than the proof's |
| RecoveryRuns.DrainComesBack | native/agcoord-broker/src/recovery.rs:503-539 | completion restores the drain found at the start with its id, reason and start time, drained exactly when no work is left; or no marker and no guards |
| RecoveryRuns.CompletionRepeats | native/agcoord-broker/src/recovery.rs:453-477 | until another recovery begins, repeating returns the stored completion while the proof row is retained |
| Rates.CeilDivLeast | native/agcoord-broker/src/cgroup.rs:2891-2956 | the rounded-up rate is the least one that covers the growth |
| Rates.PeakIsLeastBound | native/agcoord-broker/src/cgroup.rs:2978-3011 | the peak is the least rate that bounds every interval |
| Rates.PeakBoundsTotal | native/agcoord-broker/src/cgroup.rs:2978-3011 | total growth is at most peak times total time, plus the growth of samples without elapsed time |
| Rates.StoppedClockLosesGrowth | native/agcoord-broker/src/cgroup.rs:2978-3011 | a sample without elapsed time for which the bound fails |
| Rates.ProcessorRateFits | native/agcoord-broker/src/cgroup.rs:2978-3011 | the clamp of the cpu rate never takes effect |
| Rates.CpuSampler.Measure | native/agcoord-broker/src/cgroup.rs:2978-3011 | the stored sample follows the whole history; an error exactly when the counter fell, and then nothing changes |
| Rates.PeakBoundsTraffic | native/agcoord-broker/src/cgroup.rs:2891-2956 | for an unclamped resource, total traffic of each control is bounded by its peak |
| Rates.ClampLosesTraffic | native/agcoord-broker/src/cgroup.rs:2891-2956 | a clamped rate for which the bound fails |
| Rates.PeakAdvances | native/agcoord-broker/src/cgroup.rs:2891-2956 | the maximum with the last interval is the peak of the longer history |
| Rates.IoSampler.Measure | native/agcoord-broker/src/cgroup.rs:2891-2956 | the stored sample follows the histories of all controls, each of which grows by its own counter; an error exactly when one fell |
| Processes.IsDescendant | native/agcoord-broker/src/platform.rs:219-248 | terminates, and is true exactly when a chain of live parents connects the two processes with these tokens |
| Processes.Members | native/agcoord-broker/src/cgroup.rs:459-481 | exactly the descendants of the surviving members |
| Processes.MembershipIsDescent | native/agcoord-broker/src/platform.rs:219-248 | the walk upwards and the growth downwards find the same descendants |
| Processes.RecordedIdentity | native/agcoord-broker/src/platform.rs:250-270 | the process under a recorded number is the live worker, another process, or the dead worker, and never two of these |
| Hashing.ZeroBytesLeast | native/agcoord-broker/src/cgroup.rs:171-177 | the padding has the least number of zeros that section 5.1.1 of FIPS 180-4 allows |
| Hashing.PadIsBlocks | native/agcoord-broker/src/cgroup.rs:171-177 | a padded message is a whole number of blocks |
| Hashing.PadIsInjective | native/agcoord-broker/src/cgroup.rs:171-177 | no two messages are padded alike |
| Hashing.PadBytes | native/agcoord-broker/src/cgroup.rs:171-177 | the padding loop computes the padded message, wrap-around of the length included |
| Hashing.ExpandSchedule | native/agcoord-broker/src/cgroup.rs:180-195 | the schedule loops compute the recurrence of section 6.2.2 of FIPS 180-4 |
| Hashing.Compress | native/agcoord-broker/src/cgroup.rs:196-218 | the round loop computes one step of the hash value |
| Hashing.DigestPrefix | native/agcoord-broker/src/cgroup.rs:154-225 | the hexadecimal prefix of the digest |
| Hashing.DigestsAgree | native/agcoord-broker/src/cgroup.rs:154-225 | operations that agree pointwise give the same digest |
| Sha256.MachineIsStandard | native/agcoord-broker/src/cgroup.rs:184-206 | machine rotations are the shifts of section 3.2 of FIPS 180-4 |
| Sha256.Sha256Prefix | native/agcoord-broker/src/cgroup.rs:154-225 | the prefix of the SHA-256 digest, for every message |

## Left out

- The command-line front ends, the terminal interface, downloads, host attestation and the Python queue client: only shallow branches.
- System calls, mounts, namespaces, signals, pipes and `/proc`: their answers are parameters or nondeterministic results.
- Clocks and message texts: event timestamps, log output and refusal wording are omitted; the clocks of `Rates` are monotonic, and a maintenance start time is a number.
- Parsing of 40-digit commit names and of the raw forge records: a malformed record is one nondeterministic answer, a commit is its position in the graph, and hash collisions do not exist.
- Branch names: `check-ref-format` is a nondeterministic answer, and an update that would name one ref twice is refused by the forge.
- Forge.World.Interfere: other landings keep the history well formed because they are the same protocol; what another writer does is otherwise unconstrained, so nothing is stated about when others let a landing through.
- Preparation.AbandonMerge: whether an aborted merge was undone only changes the wording of the refusal, so only the state change is kept.
- Landing.Land: the outer program that turns callback errors into exit statuses 130 or 79 is not part of the model.
- Scheduler.Lanes.Admit: repositories are numbered in the order of their identifiers, and the loop around one admission is the caller's.
- The loop of `graceful_shutdown` and the child cpu leases: only `request_interruption` and `observe` are modelled.
- Broker.Database.RequestInterruption: the time of the request is not kept.
- Broker.StartWorker: waiting for a busy database is one possible failure of an access; the commit that names the worker is otherwise exact.
- Lifecycle.BackendPrepare: a backend is its policy check and an arbitrary answer; the control-group backend's kernel files are not modelled.
- Lifecycle.Store.FinishAndCleanup: the error codes with which a backend answers a finish are valid codes, as the backends make them.
- Lifecycle.Store.SetUpTmpfs: the sizes a tmpfs gets are arbitrary unless the store is `reliable`, and the check that refuses a wrong size is kept.
- Forge.World.ReuseGate: whether a receipt covers a head does not change during one landing, which asks once.
- Runs.NewRowOk: of a submission only what later steps rely on is modelled, and clearing the history, which deletes ended rows, is not a step of a row.
- Resources.ParseBackendState: JSON numbers are naturals, and other number forms count as malformed.
- ProjectQuota.Backend.Prepare: quota calls are atomic, one owner holds the locks, the kernel charges the directory to its project, tagging a directory is never refused for space, and the fixture registry is not modelled.
- ProjectQuota.Backend.RemoveTree: removing a tree is emptying it and then removing it, two writes.
- ProjectQuota.Backend.Rollback: shares the error codes of cleanup, because its own result is ignored.
- Recovery.Store.Prepare: whether workers are gone is the parameter `workersGone`, the digest of the helper is a parameter, and the identity of the program build is constant.
- RecoveryRuns.Elsewhere: other commands are modelled by what they keep while a recovery is active (`native/agcoord-broker/src/store.rs:760-1120` and `native/agcoord-broker/src/store.rs:2748-2962`), not one by one.
- Sha256.Sha256Prefix: the round constants are those of section 4.2.2 of FIPS 180-4, taken as given.
