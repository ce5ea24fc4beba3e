# Verified model of the debug-session coordination layer

kdive lets one stop-capable debug session at a time own a kernel under test, while resets, crashes
and ssh work go on around it. This project models the code that keeps that promise and proves what
it promises, for all inputs, all runs and all interleavings of the steps it takes.

Check everything with `dafny verify dfyconfig.toml`.

## What is modelled

**One target key as a value.** `Admission` is the admission gate: published snapshot, closure,
recovery mark, execution epoch, and every handle ever issued. Each member function is one critical
section of the per-key lock. `AdmissionRuns` proves what holds over every sequence of them, `AdmissionLaws` which
refusal comes first and what a grant leaves, against lists of checks that do not mention the gate's own functions.
`AdmissionService` is the service as the program keeps it, tables and handle objects changed in
place, and proves that each method is the gate's step on its own key and leaves all others alone.

**The protocol, interleaved.** `Coordination` runs any number of opens, their owners' close and
force_release, closing resets and teardown workers on one key, one step at a time, over the shared gate,
guard, lease, record, tables and subscriptions, with every outside call free to fail. Its invariant speaks
of one session's view at a time; `CoordinationSteps` proves that every step keeps it, and that a step of one
session leaves every other session's view alone. `CoordinationRuns` draws the safety theorems over all runs
from it, `RecordRuns` those about the durable record and the token table, `LeakRuns` those about bindings left
behind, and `Witnesses` has the runs that fall short of the documentation.

**The protocol, composed.** `Guard`, `Lease` and `Registry` are the smaller authorities as classes,
with fencing proved over whole runs and reconciliation proved to converge across crashes.
`Ledger` says what open, close, force_release, force_drop and the two-level teardown do to all
authorities together, failures included; `Transaction` and `SessionGuard` are the classes that do it,
each method proved equal to its ledger function. `Unwinding`, `Sessions`, `OpenLaws` and `SessionLaws` prove the
laws that span those functions: exact unwind, when an open commits and all it then leaves, open against close,
stale ids, kill before delete, idempotent teardown, the recovery gate and its crashes. The ledger treats a
whole call as one step and keeps all keys; the coordination machine keeps one key and every step between.

**Halting.** `HaltGate` has the three writes of a halt, the two of a resume and the probe, as methods
and as moves of a machine that interleaves them, for any number of controllers, with the record writes of
opens, closes and break injections, with each of a probe's two reads, with admissions and all other gate events.

**The dispatcher.** `Dispatcher` is the single-flight emit: at most one live invalidate worker for each
subscriber instance, and one verdict for each targeted name.

**Side cores.** `Notes` and `ElfFile` are the two independent build-id readers with the note layout of
chapter 5, "Note Section", of the System V ABI, and `ElfLayout` proves that they read back whole files laid out as
its chapters 4 and 5 lay out ELF headers and program headers; `Selection` the channel and break-method choice;
`Watchdog` capture, relax and restore; `Secrets` the reference-counted registry and the filter that
caches its snapshot.

Guard, lease and session identifiers, uuids in the program, are fresh numbers here.

## Where the code and its own documentation differ

The model follows the code.

- The open transaction promises to leak nothing on any failure. If storing the OPENING record itself fails,
  and only then, its token entry stays in the in-memory table (`Unwinding.FailedOpenRestores`, and in every
  interleaving `RecordRuns.FailedOpenLeavesNothing`). The entry is harmless: the token is dead.
- A wedged teardown is said to leave the ownership record for reconciliation to find the backend by. It does until
  a successor stores its OPENING record, which force_drop has made room for by freeing the target, or until the
  owner's close or force_release deletes it (`RecordRuns.UnkilledBackendStaysOnDisk`). From then on a live backend
  is on no disk (`Witnesses.SuccessorHidesUnkilledBackend`).
- A recovery open that has been promoted and then cannot unlink its tombstone unsubscribes before it rolls
  back. A reset that closes the target in between delivers to nobody, and the rollback is refused: the
  binding stays live and the target cannot be reopened (`Witnesses.RecoveryUnwindCanLeakItsBinding`).
  force_release of a session on an open target does the same (`LeakRuns.ForceReleaseStrands`). The exact
  condition is that no reset has delivered to the session (`LeakRuns.LeakedExactlyWhenUndelivered`).
- The execution state on disk is said to be what the controller persisted, and every transition of it to bump the
  execution epoch. An open writes EXECUTING with its OPENING, partial and READY records and bumps nothing, a close writes
  back the state it read, and a second controller may resume between a halt's record write and its bump. After each, a
  probe says EXECUTING in the epoch of the halt and the gate admits (`HaltGates.OpenReadmitsAStoppedTarget`,
  `CloseReadmitsAStoppedTarget`, `SecondControllerReadmitsAStoppedTarget`, and for every recovery open of a parked
  target `SessionLaws.RecoveryOpenReadmitsSsh`). `HaltGates.AdmitsExactlyWhenSaid` is the exact condition.
- The epoch in a proof is said to fence a stale one. The probe reads the record first and the epoch second, so a reading
  from before a halt is stamped with the epoch after it (`HaltGates.SlowProbeReadmitsAStoppedTarget`), and of probes
  that may pause there no epoch fences any (`HaltGates.SlowProbesAdmitExactlyWhenEver`).
- Record deletes are fenced by session, so that a stale actor cannot touch a fresh session's record. The record writes of
  halts, resumes and break injections are not: a late one replaces it (`SessionLaws.LateCopyOrphansTheGuard`).
- The session guard's teardown promises one invariant for every session. When the CLOSING write fails it
  reaches force_release for HALTED records alone, so other sessions keep record, guard and lease, and a
  HALTED one is released without a tombstone (`SessionLaws.TeardownClears`).
- The watchdog says a knob whose relax write failed needs no restore because nothing was changed. A later
  relax of the same session may have changed it (`Watchdogs.RestoredExactlyWhen`). Of a knob that the list names
  twice, the second capture is the relaxed value, where the capture is said to be the operator's baseline
  (`Watchdogs.NamedTwiceStaysRelaxed`); neither shipped list has such a knob.
- The probe's note scanner reads every file as little-endian (`Notes.BigEndianNoteDiffers`) and takes a clipped
  descriptor from a blob that ends inside a note (`Notes.ClippedNoteDiffers`); the host's scanner does neither.
  Where they agree is exact: `Notes.ScannersAgree` on a blob, `ElfFiles.ProbeAgrees` on a file.
- Marking recovery is said never to regress a tombstone by an older generation. That holds of the mark in
  admission; on disk, reconciliation overwrites a later tombstone with the marker of a parked record of an earlier
  generation (`Registries.ReconciledFiles`).

## Model

| member | source | states |
|---|---|---|
| CoordinationRuns.AtMostOneOwner | src/kdive/coordination/transaction.py:454-456 | in every interleaving of opens, closes, force_releases, resets and teardowns, at most one session that has taken the guard and not given it back exists, and the guard holds its token |
| CoordinationRuns.ResetLeavesNothing | src/kdive/coordination/transaction.py:358-377 | a closing reset against any number of opens, closes and force_releases, step by step: once whatever was delivered to a session has torn it down, a settled session admitted before the reset holds no guard, no lease, no handle entry and no subscription, no token entry but that of a failed open without a stored record (`RecordRuns.FailedOpenLeavesNothing` says when), and no live binding but for the two leaks the next rows are about |
| LeakRuns.LeakedExactlyWhenUndelivered | src/kdive/coordination/admission.py:812-819 | a live binding of a failed or unsubscribed session lives on through every continuation if and only if no reset has delivered to that session, and while it does a closed target never reopens |
| LeakRuns.ForceReleaseStrands | src/kdive/coordination/transaction.py:642-649 | force_release of a session at work on an open target ends in that leak |
| Witnesses.RecoveryUnwindCanLeakItsBinding | src/kdive/coordination/admission.py:812-819 | so does one run of a promoted recovery open that unwinds across a reset |
| RecordRuns.FailedOpenLeavesNothing | src/kdive/coordination/transaction.py:518-559 | in every interleaving a failed open holds no guard, lease, subscription or handle entry, and no record unless deleting it failed; its token entry is left if and only if the write of its OPENING record was refused |
| CoordinationRuns.StaleTeardownIsHarmless | src/kdive/coordination/transaction.py:175-224 | other sessions' invalidate, force_drop, close, force_release and unwind steps, however many and however late, leave a session's guard, lease, token, handle, record and subscription as they were |
| RecordRuns.UnkilledBackendStaysOnDisk | src/kdive/coordination/transaction.py:203-217 | while the kill of a committed session's backend is unresolved, the record on disk names that session and pid if and only if no other session has stored an OPENING record on the key since and no close or force_release by its owner has deleted it |
| Witnesses.SuccessorHidesUnkilledBackend | src/kdive/coordination/transaction.py:203-217 | a run that takes a live, unkilled backend off the disk: force_drop frees the target beside the stuck kill, and a successor's OPENING record replaces the old one |
| RecordRuns.OnlyOwnRecord | src/kdive/coordination/transaction.py:203-217 | whoever changes the record stores its own or takes its own off, a teardown worker only after its session's kill resolved |
| RecordRuns.TeardownDeletesOnlyKilled | src/kdive/coordination/transaction.py:203-217 | a teardown step removes only its own session's record and only after that session's kill resolved |
| CoordinationSteps.NextKeepsInv | src/kdive/coordination/transaction.py:395-649 | every step of every session, its owner, teardown worker, reset and foreign gate event keeps the invariant the run theorems rest on |
| CoordinationSteps.Bystander | src/kdive/coordination/transaction.py:175-224 | no step taken for one session changes what another observes, except that a new OPENING, partial or READY record displaces the old one |
| AdmissionRuns.GenerationSeparation | src/kdive/coordination/admission.py:741-941 | over all runs: after a close, older handles never become promoted or completed, promoted ones end only reaped, and every handle issued later has a strictly later generation |
| AdmissionRuns.ClosedHandlesAreFenced | src/kdive/coordination/admission.py:891-910 | while closed, every live handle is cancelled, of a generation no later than the close, and cannot promote or complete; an unreaped promoted one cannot roll back |
| AdmissionRuns.ClosedTargetCanReopen | src/kdive/coordination/admission.py:912-941 | every reachable closed target can be drained and reopened, and refuses to reopen before |
| AdmissionRuns.DrainOne | src/kdive/coordination/admission.py:821-878 | each live handle of a closed target accepts confirm_reaped then abandon, which takes exactly it out |
| AdmissionRuns.Accounting | src/kdive/coordination/admission.py:864-878 | issued handles are live, rolled back, completed or abandoned, counted exactly |
| AdmissionRuns.TerminalIsAbsorbing | src/kdive/coordination/admission.py:864-878 | a disposed handle is never touched again, whatever runs |
| AdmissionRuns.SpanningSshNeverCompletes | src/kdive/coordination/admission.py:344-390 | an ssh-tier operation live across a recorded execution transition never completes |
| AdmissionRuns.DelayedCancelReaches | src/kdive/coordination/admission.py:698-739 | a halt's cancel, however late at an unchanged generation, fences every live ssh-tier handle admitted before the halt and no transport.open handle |
| AdmissionRuns.DelayedCancelSpares | src/kdive/coordination/admission.py:698-739 | and nothing admitted after a later transition |
| AdmissionRuns.StepEvolves | src/kdive/coordination/admission.py:741-1002 | one critical section continues any history: what a run may do to old handles and what it may issue is closed under every event |
| AdmissionLaws.EveryEventDecided | src/kdive/coordination/admission.py:392-941 | each publish, open, recovery open, ssh-tier request, promote, complete, rollback, confirm_reaped, abandon and reopen is granted, with the stated effect alone, if and only if every check of its list passes, and otherwise refused for the first that fails, with nothing changed |
| AdmissionLaws.HaltReachesEveryGrant | src/kdive/coordination/admission.py:426-454 | whatever ssh-tier request is granted, its handle is one a halt that comes next cancels and that never completes after it |
| AdmissionLaws.CloseFences | src/kdive/coordination/admission.py:891-910 | a close fences every live handle and nothing else and keeps the first closed generation, unless a later incarnation is published and the target open |
| AdmissionLaws.CancelSshFences | src/kdive/coordination/admission.py:698-739 | a halt's cancel fences the live ssh-tier handles of the current incarnation admitted no later than it and nothing else |
| AdmissionLaws.RecoveryMarks | src/kdive/coordination/admission.py:943-962 | a mark is the later of the old and the new, a clear takes only the named one, a transition counts only at the published generation |
| Admission.StepKeepsInv | src/kdive/coordination/admission.py:392-962 | live list, generation and epoch bounds and cancel fences hold after every event |
| Admission.HandleStepsAreLocal | src/kdive/coordination/admission.py:741-878 | a step on one handle changes no other handle and none of the tables |
| AdmissionServices.AdmissionService.Promote | src/kdive/coordination/admission.py:741-759 | result and new state are the gate's promote of this handle; every other key's gate is unchanged |
| AdmissionServices.AdmissionService.Complete | src/kdive/coordination/admission.py:761-798 | as the gate's complete: cancel fence, then epoch fence, then the pending-open check, then disposal |
| AdmissionServices.AdmissionService.Rollback | src/kdive/coordination/admission.py:800-819 | as the gate's rollback: an unreaped promoted handle on a closed target is refused |
| AdmissionServices.AdmissionService.ConfirmReaped | src/kdive/coordination/admission.py:821-840 | as the gate's confirm_reaped, on a closed target and a cancelled live handle only |
| AdmissionServices.AdmissionService.Abandon | src/kdive/coordination/admission.py:842-862 | as the gate's abandon, after the reaped proof only |
| AdmissionServices.AdmissionService.Dispose | src/kdive/coordination/admission.py:864-878 | takes exactly this handle off its key's list and makes it terminal, or refuses |
| AdmissionServices.AdmissionService.ValidateOpen | src/kdive/coordination/admission.py:456-478 | the first refusal of the ordered checks, or the bound snapshot |
| AdmissionServices.AdmissionService.BindSnapshot | src/kdive/coordination/admission.py:499-537 | closure, then recovery gate, then freshness |
| AdmissionServices.AdmissionService.Register | src/kdive/coordination/admission.py:547-568 | one fresh pending handle, bound to the snapshot's generation and the current epoch |
| AdmissionServices.AdmissionService.Admit | src/kdive/coordination/admission.py:403-413 | grants exactly when the gate does, with the same refusal, one fresh handle, other keys unchanged |
| AdmissionServices.AdmissionService.AdmitRecovery | src/kdive/coordination/admission.py:415-424 | the same through the recovery gate: a tombstone at exactly the snapshot's generation |
| AdmissionServices.AdmissionService.RequireExecutingProof | src/kdive/coordination/admission.py:636-696 | only a fresh, epoch-current, positively EXECUTING proof passes |
| AdmissionServices.AdmissionService.ValidateSsh | src/kdive/coordination/admission.py:447-453 | freshness, shared facts, then the proof when the target is not READY: the first refusal, or the bound snapshot |
| AdmissionServices.AdmissionService.CurrentExecutionEpoch | src/kdive/coordination/admission.py:361-366 | the epoch proofs are compared with |
| AdmissionServices.AdmissionService.AdmitSsh | src/kdive/coordination/admission.py:426-454 | READY needs no proof, DEBUGGING needs one; grants exactly when the gate does |
| AdmissionServices.AdmissionService.PublishSnapshot | src/kdive/coordination/admission.py:392-401 | generations never regress |
| AdmissionServices.AdmissionService.Reopen | src/kdive/coordination/admission.py:912-941 | only past the closed generation and with no live binding |
| AdmissionServices.AdmissionService.MarkRecoveryRequired | src/kdive/coordination/admission.py:943-953 | never regresses a later mark |
| AdmissionServices.AdmissionService.ClearRecoveryRequired | src/kdive/coordination/admission.py:955-962 | only the named generation's mark |
| AdmissionServices.AdmissionService.NoteExecutionTransition | src/kdive/coordination/admission.py:368-390 | bumps only at the current generation and returns the epoch |
| AdmissionServices.AdmissionService.CloseAdmission | src/kdive/coordination/admission.py:891-910 | first closed generation kept, every live handle cancelled, a stale retry changes nothing |
| AdmissionServices.AdmissionService.CancelSshTier | src/kdive/coordination/admission.py:698-739 | cancels exactly the live ssh-tier handles of the generation admitted up to the halt epoch |
| AdmissionServices.AdmissionService.SpanningHandles | src/kdive/coordination/admission.py:732-736 | exactly the listed handles of the tier and generation admitted up to the halt epoch |
| AdmissionServices.AdmissionService.SetFences | src/kdive/coordination/admission.py:737-739 | sets the cancel flag of each given handle and nothing else of it |
| AdmissionServices.SnapshotStore.Put | src/kdive/coordination/admission.py:255-264 | stores or refuses a generation regression |
| Unwinding.FailedOpenRestores | src/kdive/coordination/transaction.py:395-559 | whatever makes an open fail, guard holders, lease owners and tokens, live bindings, recovery gates, tombstones and session tables are as before it, with one exact exception; its record is deleted, or left if the delete fails; its token entry is left, and dead, if and only if everything before the OPENING write went well and that write failed |
| OpenLaws.OpenCommitsExactlyWhen | src/kdive/coordination/transaction.py:395-516 | an open commits if and only if it is granted, the selection, guard, lease, secrets, every record write, every report, the attachment and the endpoint check go well, nothing interrupts it, and a recovery open's tombstone can be unlinked |
| OpenLaws.CommittedOpen | src/kdive/coordination/transaction.py:276-516 | the whole state a committed open leaves, field by field: its record has the session, the key, the requested generation, the lease, READY, EXECUTING and the attached backend or else the last reported one, its subscriber's kill is resolved exactly when there is none, and nothing else changed but what it holds |
| OpenLaws.Prepared | src/kdive/coordination/transaction.py:276-356 | up to its commit: what the attempt holds and knows, and the record on disk, which names the requested generation and every backend stored so far |
| OpenLaws.FailedOpenLeavesRecord | src/kdive/coordination/transaction.py:309-356 | a failed open that cannot delete its record leaves one that names session, generation, lease and the last backend stored, for reconciliation to find |
| Sessions.OpenAddsOneSession | src/kdive/coordination/transaction.py:358-393 | a committed open adds exactly one session to every authority and clears the recovery marks it was asked to clear |
| Sessions.CloseTakesBack | src/kdive/coordination/transaction.py:561-621 | close takes back guard, lease, token, handle entry and subscription whatever the transport says, gates a parked target in both places, and reports failure in exactly the stated cases |
| Sessions.ForcedCloseNeverGates | src/kdive/coordination/transaction.py:605-608 | a forced close, on any ledger and in any execution state, leaves tombstones and recovery marks as they were and cannot fail for a tombstone |
| Sessions.CloseStopsAtItsFirstWrite | src/kdive/coordination/transaction.py:575-577 | a close whose CLOSING write is refused fails and changes nothing |
| SessionLaws.OpenThenClose | src/kdive/coordination/transaction.py:395-621 | open followed by a clean close is the identity on guard, leases, tables and live bindings |
| SessionLaws.StaleCloseIsNoOp | src/kdive/coordination/transaction.py:572-574 | once another session's record has replaced its own, close of the old id changes nothing and force_release of it only forgets table entries, on any ledger |
| SessionLaws.SuccessorReplaces | src/kdive/coordination/transaction.py:276-307 | that is so from a successor's OPENING write on, while it attaches, unwinds or is open |
| SessionLaws.LateCopyOrphansTheGuard | src/kdive/debug/policy.py:51 | a late halt, resume or break injection that stores its copy of an older session's record makes close of the session now open a no-op, and its force_release drops token and handle entry with the guard held and the binding live |
| SessionLaws.ForceDropEffects | src/kdive/coordination/transaction.py:175-224 | all that a force_drop changes, on any ledger: the record goes if and only if it is the session's own, its kill has resolved and the delete succeeds; guard and lease go by their own tokens, the handle on a closed target, and a failed delete alone keeps the subscriber |
| SessionLaws.InvalidateDeletes | src/kdive/coordination/transaction.py:160-173 | invalidate deletes its own record, and if the delete fails the registered subscriber remembers that the kill has resolved |
| SessionLaws.ForceReleaseClears | src/kdive/coordination/transaction.py:623-649 | all that a force_release of a session with a record changes; a failed delete keeps record and subscriber |
| SessionLaws.ForceDropFreesAll | src/kdive/coordination/transaction.py:175-224 | on a target closed after the session opened, force_drop with the kill resolved frees everything and abandons the binding |
| SessionLaws.ForceDropIdempotent | src/kdive/coordination/transaction.py:175-224 | a second force_drop of the same subscriber changes nothing, on any ledger |
| SessionLaws.ForceReleaseKeepsBindingUnlessClosed | src/kdive/coordination/transaction.py:642-646 | force_release disposes of the admission binding if and only if the target is closed |
| SessionLaws.TeardownClears | src/kdive/seams/guard.py:197-247 | the two-level teardown clears record, guard, lease and tables if and only if the CLOSING write and its delete succeed, or the record was HALTED and the second delete succeeds; resume_ok and the tombstone exactly |
| SessionLaws.CloseParks | src/kdive/coordination/transaction.py:605-608 | closing a HALTED or UNKNOWN session without force writes the tombstone at its generation and leaves the cache at the later of that and what it was marked with; both name its generation if and only if the cache was not marked later |
| SessionLaws.ParkedTargetAdmitsOnlyRecovery | src/kdive/coordination/admission.py:480-537 | while parked, every ordinary open and ssh-tier admission is refused, and a recovery open only for reasons of its own |
| SessionLaws.RecoveryOpenClearsBothOrNeither | src/kdive/coordination/transaction.py:378-393 | a recovery open that commits clears both marks and ordinary opens pass the gate again; one that fails leaves both |
| SessionLaws.CrashedClearanceReconciles | src/kdive/coordination/transaction.py:378-393 | crashing the clearance anywhere and reconciling gates the target exactly when the durable unlink had not happened |
| Transactions.TransportTransaction.Open | src/kdive/coordination/transaction.py:395-516 | the whole transaction, failures included, is the ledger function the unwind and session laws are proved about |
| Transactions.TransportTransaction.AdmitOpen | src/kdive/coordination/transaction.py:430-432 | one fresh handle by the right entry, or no change |
| Transactions.TransportTransaction.TakeGuard | src/kdive/coordination/transaction.py:446-457 | the target-wide guard, or a stop with nothing held |
| Transactions.TransportTransaction.TakeLease | src/kdive/coordination/transaction.py:458-465 | the console lease where there is a console, then the secrets |
| Transactions.TransportTransaction.WriteOpening | src/kdive/coordination/transaction.py:276-307 | the token enters its table first; only a stored record is remembered for the unwind |
| Transactions.TransportTransaction.WriteReady | src/kdive/coordination/transaction.py:489-504 | the READY record names the backend the attempt knows |
| Transactions.TransportTransaction.Subscribe | src/kdive/coordination/transaction.py:265-271 | the session's subscriber is registered, its kill already resolved when there is no backend |
| Transactions.TransportTransaction.Unwind | src/kdive/coordination/transaction.py:518-559 | the reverse unwind |
| Transactions.TransportTransaction.AttachBackend | src/kdive/coordination/transaction.py:309-356 | each partial is written through before it is remembered; the first refused write stops |
| Transactions.TransportTransaction.Commit | src/kdive/coordination/transaction.py:358-377 | promote, register, subscribe as one step; a refused promote changes nothing |
| Transactions.TransportTransaction.ClearGate | src/kdive/coordination/transaction.py:378-393 | durable unlink first, cache second, neither if the unlink fails |
| Transactions.TransportTransaction.UnlinkTombstone | src/kdive/coordination/transaction.py:696-700 | generation-fenced, and a failure leaves the tombstone |
| Transactions.TransportTransaction.ClearCache | src/kdive/coordination/transaction.py:689-694 | the admission half, other keys unchanged |
| Transactions.TransportTransaction.Close | src/kdive/coordination/transaction.py:561-621 | on whichever record of that id the lookup finds: the CLOSING write first, then every cleanup step; failure exactly as the ledger function says |
| Transactions.TransportTransaction.RecordBySessionId | src/kdive/coordination/transaction.py:273-274 | a record naming the session, or none when no record does |
| Transactions.TransportTransaction.MarkParked | src/kdive/coordination/transaction.py:683-687 | tombstone and admission mark together, or neither |
| Transactions.TransportTransaction.CompleteHandle | src/kdive/coordination/transaction.py:598-604 | the entry goes and the handle completes, or the refusal is reported |
| Transactions.TransportTransaction.DropToken | src/kdive/coordination/transaction.py:594-597 | the guard is released by the token held in memory |
| Transactions.TransportTransaction.ForceRelease | src/kdive/coordination/transaction.py:623-649 | on whichever record of that id the lookup finds, as the ledger function: fenced delete, by-token releases, best-effort reap |
| Transactions.TransportTransaction.ForceDrop | src/kdive/coordination/transaction.py:175-224 | as the ledger function; the record goes only once the kill has resolved |
| Transactions.TransportTransaction.ReapHandle | src/kdive/coordination/transaction.py:186-201 | confirm_reaped then abandon, a refused confirmation skipping the abandon |
| Transactions.TransportTransaction.Invalidate | src/kdive/coordination/transaction.py:160-173 | the kill resolves, then force_drop |
| SessionGuards.SessionGuard.Teardown | src/kdive/seams/guard.py:197-247 | all steps run last first, their failures collected exactly; then the two-level close and release, resume_ok as verified |
| SessionGuards.SessionGuard.CloseOrRelease | src/kdive/seams/guard.py:217-237 | close, and force_release only if a HALTED record remains; the read-back decides resume_ok |
| SessionGuards.SessionGuard.Enter | src/kdive/seams/guard.py:185-189 | passes exactly when every pre-attach precondition does, and names the first that fails |
| SessionGuards.SessionGuard.VerifyAttached | src/kdive/seams/guard.py:191-195 | passes exactly when every post-attach precondition does, and names the first that fails |
| SessionGuards.SessionGuard.FirstFailure | src/kdive/seams/guard.py:185-195 | the first failing precondition in declared order, or none |
| SessionGuards.CloseKeepsSidsUnique | src/kdive/coordination/transaction.py:561-621 | close never makes two records name one session |
| SessionGuards.TornDownUniquely | src/kdive/seams/guard.py:217-247 | while ids on disk are unique, the outcome of the two-level teardown is determined, whichever record its lookups list first |
| SessionGuards.LastFirstReverses | src/kdive/seams/guard.py:209-215 | step i of the teardown is the i-th from the end |
| Registries.SessionRegistry.Reconcile | src/kdive/coordination/registry.py:259-342 | ends with the reconciled files whatever kills and callbacks do, one report per record, admission marked per key; its durable writes, in order, lead from the old files to the new, and from the files after each of them a rerun ends the same |
| Registries.CrashThenRerun | src/kdive/coordination/registry.py:259-342 | a crash after any of its durable writes, in any order over the keys, followed by a rerun reaches the files of an uninterrupted run |
| Registries.ReconciledFiles | src/kdive/coordination/registry.py:300-342 | no records, every parked record tombstoned, idempotent; a key with a readable tombstone keeps one, whose generation goes back if and only if the key's record is parked at an earlier one |
| Registries.TombstonedKeysAreGated | src/kdive/coordination/registry.py:293-320 | every readable tombstone is marked in admission at no earlier a generation, and ordinary admission is refused until a later one |
| Registries.ReconciledGate | src/kdive/coordination/registry.py:293-334 | the gate of any key after reconciling: closed, and its live handles cancelled, exactly for a record whose backend was alive and killed and no later incarnation published, the first closed generation kept; the recovery mark is the latest of the old one, the tombstone's and a parked record's; nothing else changes |
| Registries.SessionRegistry.ReapOrphan | src/kdive/coordination/registry.py:301-341 | one record: tombstone before unlink, close exactly for a live backend |
| Registries.SessionRegistry.ReassertTombstones | src/kdive/coordination/registry.py:293-299 | every readable tombstone goes back into admission, malformed ones are skipped |
| Registries.SessionRegistry.DeleteRecord | src/kdive/coordination/registry.py:178-207 | with an expected session, only that session's own record is unlinked |
| Registries.SessionRegistry.WriteRecord | src/kdive/coordination/registry.py:169-170 | the key's record is the new one, or the old one if the write is refused |
| Registries.SessionRegistry.ReadRecord | src/kdive/coordination/registry.py:172-176 | the key's record or none |
| Registries.SessionRegistry.WriteTombstone | src/kdive/coordination/registry.py:215-224 | the key's tombstone is the new one, or the old one if the write is refused |
| Registries.SessionRegistry.ReadTombstone | src/kdive/coordination/registry.py:244-248 | a malformed tombstone reads as none |
| Registries.SessionRegistry.ListRecords | src/kdive/coordination/registry.py:209-213 | every record once |
| Registries.SessionRegistry.ClearTombstone | src/kdive/coordination/registry.py:250-257 | only a readable tombstone of the expected generation is unlinked |
| Guards.DeadTokenStaysDead | src/kdive/seams/guard.py:61-92 | a token that no longer holds its key never frees anything again, through any calls |
| Guards.HolderKeepsItsKey | src/kdive/seams/guard.py:41-74 | only its own release or a revoke of its key ends a holder |
| Guards.InProcessStopCapableGuard.Acquire | src/kdive/seams/guard.py:52-59 | conflict exactly when the key is held; otherwise a fresh fence |
| Guards.InProcessStopCapableGuard.Release | src/kdive/seams/guard.py:61-74 | frees exactly for the current holder's own token and key |
| Guards.InProcessStopCapableGuard.Revoke | src/kdive/seams/guard.py:76-92 | the key is free, whoever held it |
| Leases.DeadLeaseStaysDead | src/kdive/coordination/lease.py:42-69 | a released or revoked lease token never holds the lease again |
| Leases.ConsoleLease.Acquire | src/kdive/coordination/lease.py:42-51 | compare-and-set on a free lease, one generation per grant |
| Leases.ConsoleLease.Release | src/kdive/coordination/lease.py:53-61 | only the current token frees it |
| Leases.ConsoleLease.Revoke | src/kdive/coordination/lease.py:63-69 | free, one generation on |
| Leases.ConsoleLeaseManager.LeaseFor | src/kdive/coordination/lease.py:82-88 | one lease per key, made on first use |
| Leases.ConsoleLeaseManager.Acquire | src/kdive/coordination/lease.py:90-91 | the key's lease moves, all others stay |
| Leases.ConsoleLeaseManager.Release | src/kdive/coordination/lease.py:93-94 | the key's lease moves, all others stay |
| Leases.ConsoleLeaseManager.Revoke | src/kdive/coordination/lease.py:96-97 | the key's lease moves, all others stay |
| HaltGates.StoppedTargetAdmitsNoSsh | src/kdive/debug/policy.py:45-53 | with one controller, in every interleaving with opens, closes and probes: between a halt's epoch bump and the next resume's record write, every probe-backed ssh-tier admission against a DEBUGGING target is refused, unless an EXECUTING record of an open, or one a close wrote back, has been on disk since the bump, or a probe that had read EXECUTING was still to read the epoch when it came |
| HaltGates.SilentTargetAdmitsNoSsh | src/kdive/coordination/admission.py:636-696 | with any number of controllers, every such admission is refused as long as no EXECUTING record has been on disk since the last epoch bump and no probe had read one and not yet the epoch when it came |
| HaltGates.AdmitsExactlyWhenSaid | src/kdive/coordination/exec_probe.py:26-32 | the exact condition where nothing comes between a probe's two reads: some placing of such probes in the run gets the request granted if and only if nothing else is against it and an EXECUTING record has been on disk since the last bump; the probe of this moment does if and only if the record says EXECUTING now |
| HaltGates.SlowProbesAdmitExactlyWhenEver | src/kdive/coordination/exec_probe.py:26-32 | the exact condition for probes that may pause between their two reads: if and only if nothing else is against it and an EXECUTING record has ever been on disk |
| HaltGates.SlowProbeReadmitsAStoppedTarget | src/kdive/coordination/exec_probe.py:26-32 | a run with one controller in which a probe reads EXECUTING before a halt and the epoch after its bump, and the admission is granted with HALTED on disk |
| HaltGates.OpenReadmitsAStoppedTarget | src/kdive/coordination/transaction.py:289-306 | a run with one controller in which an open's record, stored after the halt was over, gets an admission granted |
| HaltGates.CloseReadmitsAStoppedTarget | src/kdive/coordination/transaction.py:572-577 | the same by a CLOSING write of a copy read before the halt |
| HaltGates.SecondControllerReadmitsAStoppedTarget | src/kdive/debug/session_state.py:73-80 | the same by another controller's resume between the halt's record write and its bump |
| SessionLaws.RecoveryOpenReadmitsSsh | src/kdive/coordination/transaction.py:289-306 | for every committed recovery open of a target parked in DEBUGGING: its record says EXECUTING in the epoch of the halt, and a probe of it gets an ssh-tier request granted if and only if the shared facts allow it, where before none was granted |
| HaltGates.NothingCompletesAcrossABump | src/kdive/coordination/admission.py:344-390 | an ssh-tier handle live when a bump of any controller's halt or resume lands never completes, however it got in |
| HaltGates.StaleProofAdmitsBeforeTheBump | src/kdive/debug/policy.py:51-52 | the refusal begins at the bump, not at the record write: a run in which the record says HALTED and an older proof still admits |
| HaltGates.HaltDebugTransport | src/kdive/debug/policy.py:45-53 | record HALTED, one bump, the cancel at the bumped epoch; other keys unchanged |
| HaltGates.ResumeDebugTransport | src/kdive/debug/session_state.py:73-80 | record EXECUTING, one bump; other keys unchanged |
| HaltGates.ProbeExecutionState | src/kdive/coordination/exec_probe.py:13-32 | the recorded state, or unknown, stamped with generation and epoch |
| Dispatchers.OneLiveWorkerPerInstance | src/kdive/seams/lifecycle.py:115-122 | over any sequence of emits with workers ending in between, no subscriber instance has two live invalidate workers |
| Dispatchers.WedgedInstanceGetsNoMoreWorkers | src/kdive/seams/lifecycle.py:187-196 | while an instance's worker is wedged, no emit starts another for it |
| Dispatchers.InProcessLifecycleDispatcher.Emit | src/kdive/seams/lifecycle.py:222-256 | one worker per runnable instance and none for a wedged one; every targeted name gets exactly one verdict |
| Dispatchers.InProcessLifecycleDispatcher.RunInvalidates | src/kdive/seams/lifecycle.py:163-185 | one worker per name, the ones still alive recorded per instance |
| Dispatchers.InProcessLifecycleDispatcher.ForceDropNewlyOverdue | src/kdive/seams/lifecycle.py:198-220 | each overrun name is force-dropped, errored or failed twice |
| Dispatchers.InProcessLifecycleDispatcher.PruneOverdue | src/kdive/seams/lifecycle.py:142-143 | keeps exactly the records of live workers |
| Dispatchers.InProcessLifecycleDispatcher.Subscribe | src/kdive/seams/lifecycle.py:124-126 | replaces the name's instance |
| Dispatchers.InProcessLifecycleDispatcher.Unsubscribe | src/kdive/seams/lifecycle.py:128-132 | removes the name, present or not |
| Notes.ScanUndoesEncoding | src/kdive/symbols/build_id.py:38-51 | scanning the encoding of any list of notes, in either byte order, returns the first build-id note's descriptor or none |
| Notes.ScannersAgree | src/kdive/prereqs/drgn_probe.py:300-311 | on any little-endian blob the mask-based scanner returns the host scanner's id, nothing where the host reaches the end, and differs only on a blob that ends inside a matching note |
| Notes.ClippedNoteDiffers | src/kdive/prereqs/drgn_probe.py:300-311 | a clipped input: the host reads nothing, the probe half a descriptor |
| Notes.BigEndianNoteDiffers | src/kdive/prereqs/drgn_probe.py:300-311 | a big-endian input: the host reads the id, the probe nothing |
| Notes.ScanNotes | src/kdive/symbols/build_id.py:38-51 | the loop computes the scan the round trip is proved about |
| Notes.ParseNotes | src/kdive/prereqs/drgn_probe.py:300-311 | the loop computes the mask-based parse |
| Notes.HeaderReadsBack | src/kdive/symbols/build_id.py:41-45 | an encoded note's header and parts are read back where they were written |
| Notes.NamesGnuExactly | src/kdive/symbols/build_id.py:48-49 | the names taken for GNU are those three letters and any number of zero bytes |
| ElfLayouts.ReaderUndoesLayout | src/kdive/symbols/build_id.py:54-108 | of any file laid out from an ELF header, program headers and notes, in both classes and byte orders and wherever its parts are, the host's reader answers the first build id in table order, or that there is none |
| ElfLayouts.ProbeUndoesLayout | src/kdive/prereqs/drgn_probe.py:322-360 | and the probe, of a little-endian one, the first that is not empty |
| ElfLayouts.TableReadsBack | src/kdive/symbols/build_id.py:74-90 | a file that begins with an encoded header opens with its table offset, entry size and count, or is refused for no program headers, a too small entry size or a table past the end, in that order |
| ElfLayouts.NoHeaderNoTable | src/kdive/symbols/build_id.py:65-81 | any other file is refused as too short, not ELF or of an unsupported class or byte order |
| ElfLayouts.SegmentReadsBack | src/kdive/symbols/build_id.py:91-102 | type, offset and file size of an encoded program header are read back in both classes and byte orders |
| ElfFiles.ReadElfBuildId | src/kdive/symbols/build_id.py:54-108 | an id is the first over the PT_NOTE segments in table order; otherwise exactly which check failed; every unpack is inside the bytes read |
| ElfFiles.WalkTable | src/kdive/symbols/build_id.py:91-108 | first id, first unreadable segment before any id, or none |
| ElfFiles.ElfBuildId | src/kdive/prereqs/drgn_probe.py:322-360 | the probe's walk: the first non-empty id or nothing |
| ElfFiles.ProbeAgrees | src/kdive/prereqs/drgn_probe.py:322-360 | on a little-endian file the probe returns the host's non-empty id, from the same header, if and only if no earlier note segment ends inside a build-id note with some of its descriptor left |
| Selections.SelectStopCapableChannel | src/kdive/coordination/selection.py:63-100 | the first capable channel with an undisproved method, or each error code in exactly its case |
| Selections.MoreDisproofsSelectLater | src/kdive/coordination/selection.py:87-98 | a larger disproof set never selects an earlier channel, nor a better method on the same one |
| Selections.SelectionIsUnique | src/kdive/coordination/selection.py:63-100 | channel and method are determined by the inputs |
| Selections.DisproofScope | src/kdive/coordination/selection.py:42-54 | a SysRq disproof prunes the method on every channel, a line-bound one on its own channel only |
| Selections.DisproofsStayOnTheirTarget | src/kdive/coordination/selection.py:49-51 | a disproof for one target changes nothing on another |
| Selections.Candidates | src/kdive/seams/break_policy.py:68-95 | exactly the methods whose topology predicate holds, in preference order |
| Selections.CandidateList | src/kdive/seams/break_policy.py:68-95 | the candidates are the line's own method and then SysRq over ssh, or the other way round on a shared console that is not a UART, each where its topology allows it |
| Selections.Plan | src/kdive/seams/break_policy.py:45-66 | the preferred undisproved method, no_break_plan exactly without a topology candidate, break_disproved otherwise |
| Watchdogs.RestoredExactlyWhen | src/kdive/seams/watchdog.py:147-195 | after a relax, any reissues and a restore, a knob has its baseline if and only if it was not captured, never written, written by the first relax and by the restore and captured at its baseline, or relaxed to its baseline |
| Watchdogs.CapturesBaseline | src/kdive/seams/watchdog.py:147-162 | what the first relax captures of a knob is its baseline if and only if no earlier entry of the list named it and wrote another value |
| Watchdogs.NamedTwiceStaysRelaxed | src/kdive/seams/watchdog.py:147-195 | when its every write goes through, a readable in-band knob comes back if and only if the list names it once or relaxes it to its baseline first |
| Watchdogs.OneRelaxRestores | src/kdive/seams/watchdog.py:147-195 | for a list that names each knob once, with one relax and a restore whose writes succeed, every knob is back whatever the relax could not read or write |
| Watchdogs.ReportsTell | src/kdive/seams/watchdog.py:147-195 | for a list that names each knob once, a relax reports each as skipped, absent, relaxed or failed exactly, and the restore reports exactly the knobs the relax wrote, with whether they went back |
| Watchdogs.ShippedKnobsAreDistinct | src/kdive/seams/watchdog.py:48-65 | the knob list of every architecture names each knob once, which a restore to the baseline needs |
| Watchdogs.WatchdogPolicy.FirstRelax | src/kdive/seams/watchdog.py:147-162 | captures exactly the readable in-band knobs, each at the value it finds, and writes them, one outcome per knob |
| Watchdogs.WatchdogPolicy.ReissueRelax | src/kdive/seams/watchdog.py:164-180 | writes the captured knobs again and captures nothing |
| Watchdogs.WatchdogPolicy.RelaxSession | src/kdive/seams/watchdog.py:127-145 | first call captures, later ones reissue; other sessions' captures unchanged |
| Watchdogs.WatchdogPolicy.RestoreSession | src/kdive/seams/watchdog.py:182-195 | puts back exactly the knobs the first relax wrote, drops the capture, and is a no-op without one |
| Watchdogs.WatchdogControl.ReadKnob | src/kdive/seams/watchdog.py:197-202 | the knob's value, or none when it is absent or cannot be read |
| Watchdogs.WatchdogControl.WriteKnob | src/kdive/seams/watchdog.py:204-209 | a failed write is reported and changes nothing |
| Secrets.SecretRegistry.Register | src/kdive/safety/secret_registry.py:27-34 | one more occurrence in its scope; a changed snapshot has a changed version |
| Secrets.SecretRegistry.Release | src/kdive/safety/secret_registry.py:36-49 | every count is again the occurrences over the scopes not released; a changed snapshot has a changed version |
| Secrets.ReleaseCounts | src/kdive/safety/secret_registry.py:36-49 | releasing a scope takes away exactly its own occurrences of each value |
| Secrets.SecretRedactionFilter.Current | src/kdive/safety/redaction.py:73-78 | the redactor handed out masks exactly the present snapshot |
| Secrets.CacheStaysExact | src/kdive/safety/redaction.py:68-78 | a cached version's seeds stay exact through any sequence of registry calls |

## Left out

- Closing admission and delivering to subscribers are one step of a reset: a reopen that slips in between is not modelled.
- The owner of an open session calls close and force_release one at a time, after its open has returned; overlapping calls for one session are not moves of the coordination machine.
- Popping a table entry and acting on what was popped are one step of close and force_release there: nobody else acts on the entry in between.
- The record writes of halts, resumes and break injections, which store their caller's whole copy of a record unfenced, are not moves of the coordination machine. While the copy is what is on disk they would change nothing there; what a late one does is `SessionLaws.LateCopyOrphansTheGuard`. They are moves of the machine of `HaltGate`.
- RecordRuns.OnlyOwnRecord: speaks of opens, closes, releases and teardowns, and not of such a late copy.
- RecordRuns.UnkilledBackendStaysOnDisk: holds as long as no such late copy has been stored.
- RecordRuns.FailedOpenLeavesNothing: its record stays gone as long as no such late copy has been stored.
- CoordinationRuns.ResetLeavesNothing: holds as long as no such late copy has been stored.
- HaltGates.StoppedTargetAdmitsNoSsh: execution epochs start anew with the process, and a restart in the middle of a halt is not a move.
- Lifecycle events emitted without closing admission are not moves of the coordination machine.
- The read, check and unlink of a fenced record delete are one step, and outside `HaltGate` so are the read and first write of close: the code gives no guarantee in between.
- Concurrent relaxes of one watchdog session, and a registry change between the two reads of the redaction filter, are not interleaved.
- Storage is two maps keyed by target: path names, fsync, the instance lock and malformed owner records are not modelled; malformed tombstones are.
- A write that fails leaves the old file or knob value; a read of a record never fails.
- Lease expiry, platform drift, capability and channel comparisons against the snapshot enter admission as given outcomes, in the code's order.
- Backend reaping is outside the model: a kill either resolves or is still pending. Malformed backend partials, which the code ignores, do not occur.
- Endpoint refusal before admission, break injection, and the transaction's crash points other than the one after the READY write are not modelled.
- Transactions.TransportTransaction.Open: the lifecycle dispatcher is always bound, because an unbound transaction only skips the subscription.
- Registries.SessionRegistry.Reconcile: the callback closes admission for a live backend and then may fail; its event delivery finds no subscribers in a new process, so it does nothing more.
- SessionGuards.SessionGuard.Teardown: a teardown step is a name and whether it raises; what a step does to the target is its own (the watchdog's is modelled in `Watchdog`).
- ElfFiles.ReadElfBuildId: a segment offset of 2^63 or more makes the program's seek raise OverflowError, and a huge segment size its read OverflowError or MemoryError; here such a segment reads as truncated, or as empty when its size is zero.
- ElfFiles.WalkTable: the same offsets and sizes, which it meets first.
- ElfFiles.ElfBuildId: the same errors end the probe's walk with no answer; here the segment reads as what there is of it and the walk goes on.
- The order of a key's binding list is kept by the service but not by the gate, which holds it as a set: no operation depends on it.
- Real threads and deadlines: a worker has finished, raised or is still running when its deadline passes.
- The RSP stop-reply probe, vmcore build ids, redaction patterns, configuration, MCP tools, handlers, workflows, providers and the ssh runner would only add easy members or depend on code outside this layer.
