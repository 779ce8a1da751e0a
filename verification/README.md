# bsbctl verification

A Dafny model of the parts of bsbctl whose correctness depends on more than one function at a time,
with proofs. `dafny verify dfyconfig.toml` checks everything.

Each module has the same build. Lock-held regions, I/O steps and goroutine steps are total functions on
a value (an action that is not enabled changes nothing); a run is any sequence of actions; an invariant
is kept by every step; the main results are about every run. Beside what can never happen stands what must:
the second module of a pair says, on fields and file contents alone, exactly when each part of the state
changes and to what, where each result comes from, and that work which is not disturbed succeeds. Where the
source updates fields, maps or arrays in place, a class or a loop does the same and is proved equal to the
functions.

| module | models |
|---|---|
| `SessionInputBroker`, `SessionInputDelivery` | one worker and one bounded queue per session, under publish, delivery, failure, Cancel, Complete, Apply and Close; what callers get |
| `DecisionLedger`, `LedgerAppends` | the append-only decision ledger with rotation, retention, partial writes and restarts |
| `InstallTransaction`, `InstallEffects` | the installer's journalled transaction and its recovery |
| `ReconcileAttempts`, `ReconcileEffects` | epochs, attempts and revisions of configuration reconciliation |
| `ForegroundSessions`, `ForegroundEffects` | ownership of the foreground, launches and EndSession |
| `AssetReadiness`, `AssetEffects` | what the asset cache claims about the device, across reconnections |
| `DeviceOutput`, `OutputEffects` | the serialized device output actor and its shutdown |
| `ReleasePublication`, `PublicationEffects` | staging and publishing several releases, with interruptions |
| `ConfigGenerations` | application generations over the history of a configuration file |
| `CheckpointStore`, `CheckpointEffects` | the checkpoint inventory against its directory |
| `Identifiers`, `AttentionTables`, `AttentionDocuments` | composite identifiers, bounded attention tables, their saved documents |
| `MachOIdentity` | inserting an LC_UUID into a Mach-O file |
| `AnimationCodec` | delta-encoded preview animations |

## Where the code does not do what one would expect

Each is a proved statement with the exact condition, not a change to the model.

- Asset readiness (internal/assets/reconciler.go:140-155 and 165-178): while a disabled or assetless package
  of a plugin is being reconciled, the previous package is still reported ready although its files are being
  removed (`WithdrawalWindow`, `WithdrawalOpensWindow`); at every other time readiness is true of the device
  (`ReadyMeansPresent`).
- Checkpoint reset (internal/checkpoint/store.go:213-239): a file that cannot be read but can be removed
  leaves its inventory entry and counts behind until the next reconciliation (`UnreadResetExample`,
  `OnlyUnreadResetLoses`).
- Decision ledger (internal/attention/recorder.go:164-228): a trace longer than the file bound is written
  and then makes the next start-up refuse the ledger (`ReopensIffLineFits`); with no archive retained a
  rotation that truncates loses the newest record (`RotationSurvivesIffRetained`).
- Installer (internal/installer/installer.go:433-446): an empty plugin record does not survive restoring the
  prior state (`RestoreIsExact`, `EmptyRecordExample`). Validation accepts such a record, but no operation
  writes one, so from a state without one restoring is always exact (`InterruptedTransactionRecovers`).
- Preview animations (cmd/previewgen/fixtures.go:136-138): a still, whose frames merge to one, is encoded
  without a loop count, and the decoder refuses what it then reads as -1 (`StillCaptureIsRefused`,
  `BlankCaptureExample`); a merged delay of 65536 or more does not survive the format's 16-bit field
  (`DecodeInvertsEncode`).

## Assumptions

- Failed renames and failed removals have no effect; other failed writes may have any partial effect the
  format allows. Hashes, fingerprints and truncated path digests do not collide.
- Only the store writes the checkpoint directory; only one publisher works on a plan, and a remote call
  that takes effect takes it whole. The device changes on its own only when the connection is invalidated.
- The ledger theorems over runs take at least one retained archive and lines within the file bound.
- The installer theorems take configuration and state in agreement beforehand, no empty plugin record, and
  packages that verify.
- The attention theorems take valid identities admitted under their own identifiers.
- Times, random choices, device contents and the outcome of every call are supplied by the environment.

## Model

| member | source | states |
|---|---|---|
| `SessionInputBroker.Worker.EnqueueDelivery` | internal/eventbus/broker.go:366-381 | Refuses a stopped or completing worker, then a queue of 64; otherwise appends. The new queue is the specification's. |
| `SessionInputBroker.Worker.Begin` | internal/eventbus/broker.go:421-431 | Takes the head as in flight only when nothing is in flight and the worker is not stopped; leaves the queue as it is. |
| `SessionInputBroker.Worker.FinishDelivery` | internal/eventbus/broker.go:433-451 | Removes the head it was given, stops on failure or when completing; refuses a sequence that is not the head's. |
| `SessionInputBroker.Worker.CompleteNoWait` | internal/eventbus/broker.go:465-485 | Keeps only an input in flight and discards the rest; stops at once when nothing is in flight. |
| `SessionInputBroker.Worker.StopNoWait` | internal/eventbus/broker.go:494-505 | Empties the whole queue, an input in flight included, returns all of it for rejection, and stops. |
| `SessionInputBroker.StepKeeps` | internal/eventbus/broker.go:111-514 | Every action of every goroutine keeps the broker invariant (each waiting input in exactly one place, the queue a suffix of what was accepted, one live table entry per worker). |
| `SessionInputBroker.RunKeeps` | internal/eventbus/broker.go:111-514 | So it holds after every interleaving of publish, delivery, failure, Cancel, Complete, Apply and Close. |
| `SessionInputBroker.WaitersAreAnswered` | internal/eventbus/broker.go:366-514 | Every accepted input with a waiting caller is answered exactly when it is no longer queued, being rejected or being delivered; once its worker has ended it is answered, and a delivered answer means the input was started. |
| `SessionInputBroker.SendsNeverBlock` | internal/eventbus/broker.go:383-419 | Whenever a response is about to be sent, that one-slot channel has never been sent on. |
| `SessionInputBroker.OneLiveWorkerPerSession` | internal/eventbus/broker.go:183-246 | Two workers of one session key that have both not ended are the same worker. |
| `SessionInputBroker.DeliversInQueueOrder` | internal/eventbus/broker.go:383-451 | The inputs started are a prefix of those accepted, in queue order; at most one is in flight and at most 64 are queued. |
| `SessionInputBroker.NoMissedWakeup` | internal/eventbus/broker.go:366-431 | A waiting worker with a non-empty queue has a wake-up pending. |
| `SessionInputBroker.HeadMismatchUnreachable` | internal/eventbus/broker.go:433-451 | The branch of finish for a sequence that is not the head's is never taken while the worker is not stopped. |
| `SessionInputBroker.EndedMeansStopped` | internal/eventbus/broker.go:297-325 | An ended worker is stopped; after Close has returned every worker is. |
| `SessionInputBroker.HistoryIsFinal` | internal/eventbus/broker.go:366-514 | Over any continuation, accepted and started inputs only grow, answers never change, and a stopped worker accepts and starts nothing more. |
| `SessionInputBroker.StoppedProgress` | internal/eventbus/broker.go:317-356 | In every reachable state, whoever holds the broker lock, some step brings a stopped worker nearer its end: an outstanding rejection, the rest of Apply or Close, or a step of its own. |
| `SessionInputBroker.StoppedWorkerCanEnd` | internal/eventbus/broker.go:317-325 | From every reachable state a stopped worker can end with every waiter answered. |
| `SessionInputDelivery.AnswersComeFromCallbacks` | internal/eventbus/broker.go:383-419 | Over every run: a delivered answer is the result and error that the callback for exactly that input returned earlier in the run, on a worker nobody had stopped by then. |
| `SessionInputDelivery.CallbackOutcomeIsTheAnswer` | internal/eventbus/broker.go:383-419 | Once that callback has returned, its outcome is the only answer any continuation can give the caller, and it has been given when the worker ends. |
| `SessionInputDelivery.DiscardedInputsAreInvalidated` | internal/eventbus/broker.go:465-514 | A waiting input that leaves the queue in any other way is answered as invalidated in every continuation, and has been when the worker ends. |
| `SessionInputDelivery.FailedCallbackIsLast` | internal/eventbus/broker.go:383-419 | After a callback that fails the worker starts no other input, whatever happens. |
| `SessionInputDelivery.QueuedInputsCanBeAnswered` | internal/eventbus/broker.go:383-451 | In every reachable state, any input queued on a worker that is not stopped, completing or failed can be delivered and answered with whatever its callback returns, by the worker's own steps. |
| `SessionInputDelivery.PublishEffect` | internal/eventbus/broker.go:183-237 | Publishing is refused, without effect, exactly in the source's five cases; otherwise the input gets the next sequence number and its session's live worker, a new one exactly if there is none. |
| `SessionInputDelivery.QueueEffect` | internal/eventbus/broker.go:239-246 | The published input is queued and the worker woken, or refused by an unavailable worker, or, at 64 inputs, leaves an overrun to report; nothing else changes. |
| `SessionInputDelivery.CancelEffect` | internal/eventbus/broker.go:250-259 | Cancel stops the live worker of exactly that session, rejects all it had queued and lifts its invalidation. |
| `SessionInputDelivery.CompleteEffect` | internal/eventbus/broker.go:263-272 | Complete leaves a callback under way in the queue and rejects the rest; with none under way it stops the worker. |
| `SessionInputDelivery.FailureEffect` | internal/eventbus/broker.go:327-356 | A failed callback or an overrun stops the worker and invalidates the session, exactly unless the worker is unavailable or gone. |
| `SessionInputDelivery.RunningWorkersAreRouted` | internal/eventbus/broker.go:111-153 | Over every run: a worker that is not stopped serves the current routing, and Apply has exactly the workers its table drops left to stop. |
| `SessionInputDelivery.RegionEffect` | internal/eventbus/broker.go:111-153 | What Apply and Close start with, and the routing and invalidations they end with. |
| `SessionInputDelivery.StopNextEffect` | internal/eventbus/broker.go:126-134 | Each step of Apply or Close stops one session of the list, rejecting all it had queued. |
| `DecisionLedger.Recorder.TruncateActiveFile` | internal/attention/recorder.go:342-351 | Truncate and seek, each of which may fail or be the last step before a process stop. |
| `DecisionLedger.Recorder.CleanupOldArchives` | internal/attention/recorder.go:353-363 | Removes whole archives, oldest first, until at most the retained number is left; stops at the first failure. |
| `DecisionLedger.Recorder.RotateFile` | internal/attention/recorder.go:283-340 | Rename to the next archive, truncate, then retention, with every failure and stop in between. |
| `DecisionLedger.Recorder.RecoverWrite` | internal/attention/recorder.go:371-381 | Truncates back to the size before an unclean write. |
| `DecisionLedger.Recorder.AppendTrace` | internal/attention/recorder.go:164-228 | Recovery, pending rotation, pending cleanup, the duplicate check, rotation for room, then the write. |
| `DecisionLedger.Recorder.Write` | internal/attention/recorder.go:164-228 | A write with any number of bytes written, rollback and seek; recovery is left pending when either fails. |
| `DecisionLedger.Recorder.ConsumeLines` | internal/attention/recorder.go:410-498 | Accepts exactly a contiguous continuation and ends with its last sequence, last key and last `capacity` records. |
| `DecisionLedger.Recorder.ConsumeArchives` | internal/attention/recorder.go:410-474 | Reads the archives in order, refusing a gap, a file over the bound or a cut-short line, and nothing else. |
| `DecisionLedger.Recorder.RestoreLedger` | internal/attention/recorder.go:410-474 | Equal to the restart function: refused, repair failed, or the memory of the records read. |
| `DecisionLedger.CleanupDisk` | internal/attention/recorder.go:353-363 | Retention drops only the oldest records, never the newest archive, and keeps the disk well formed. |
| `DecisionLedger.RotateKeeps` | internal/attention/recorder.go:283-340 | Whatever fails in a rotation, no record is lost but by retention. |
| `DecisionLedger.RecoverKeeps` | internal/attention/recorder.go:371-381 | Recovery from an unclean write keeps the acknowledged records and the invariant. |
| `DecisionLedger.WriteDone` | internal/attention/recorder.go:164-228 | A clean write adds exactly one record to the ledger. |
| `DecisionLedger.WriteBroken` | internal/attention/recorder.go:164-228 | An unclean write leaves the ledger as it was, or stops with at most one more whole record on disk. |
| `DecisionLedger.AppendKeeps` | internal/attention/recorder.go:164-228 | One append in every outcome keeps the invariant, drops only by retention and adds at most one record. |
| `DecisionLedger.OpenKeeps` | internal/attention/recorder.go:116-162 | Start-up accepts every disk the recorder can leave and reads back the last sequence, key and `capacity` records. |
| `DecisionLedger.ChainIsNotAwaiting` | internal/attention/recorder.go:503-534 | A contiguous continuation of the archives never looks like a committed archive awaiting truncation, so the check at start-up has no false positive. |
| `DecisionLedger.LedgerSurvives` | internal/attention/recorder.go:112-228 | After any run of appends, I/O failures, process stops and restarts the records on disk are consecutive with no two neighbours sharing a key, and reopening never rejects them. |
| `DecisionLedger.AcknowledgedRecordsSurvive` | internal/attention/recorder.go:164-381 | Over any continuation of a run, records go only by retention, oldest first; nothing is changed or reordered. |
| `DecisionLedger.ReopensIffLineFits` | internal/attention/recorder.go:410-498 | After an append of a line, reopening is refused if and only if the line is longer than the file bound. |
| `DecisionLedger.RotationSurvivesIffRetained` | internal/attention/recorder.go:283-340 | Whatever fails in a rotation and whenever the process stops, the newest record is still on disk if and only if at least one archive is retained or the truncation had no effect. |
| `LedgerAppends.AppendEffect` | internal/attention/recorder.go:164-228 | An append whose I/O succeeds, from every ledger a run can leave: nothing for a repeated key, one more line if the file is empty or the line fits, otherwise a new archive of the old lines and a file of the new one; the newest `retained` archives stay. |
| `LedgerAppends.AppendEffectOverRuns` | internal/attention/recorder.go:164-228 | The same at any point of any run. |
| `LedgerAppends.NewArchiveOnlyWhenFull` | internal/attention/recorder.go:200-204 | Whatever fails, an archive appears only when a new trace's line does not fit, and holds exactly the lines before it, under the next number. |
| `LedgerAppends.FittingAppend` | internal/attention/recorder.go:200-226 | With nothing to repair, a new trace that fits leaves the archives alone and adds exactly its line. |
| `LedgerAppends.FailedWriteEffect` | internal/attention/recorder.go:205-219 | A failed write is reported and undone at once; recovery is left pending exactly if the truncation or the seek fails. |
| `LedgerAppends.OpenEffect` | internal/attention/recorder.go:116-162 | On what a run leaves, start-up succeeds exactly if the needed I/O does, failed removals aside, and the active file holds its whole lines or nothing if they are archived. |
| `LedgerAppends.OpenAcceptsExactly` | internal/attention/recorder.go:410-534 | Whatever the files hold: accepted exactly if none is over the bound, every archive ends with a whole line and the sequence numbers count up. |
| `InstallTransaction.KeysAreInjective` | internal/installer/state.go:29-38 | Release keys with separator-free ids, versions and systems never collide. |
| `InstallTransaction.ApplyTargetIdempotent` | internal/installer/installer.go:413-431 | Applying the target twice equals applying it once. |
| `InstallTransaction.RestoreIsExact` | internal/installer/installer.go:433-446 | Restoring the prior state gives back exactly the state before, if and only if that state held no empty plugin record. |
| `InstallTransaction.EmptyRecordExample` | internal/installer/state.go:150-182 | A state validation accepts, holding an empty plugin record, that an undone install does not restore. |
| `InstallTransaction.ActivationAgrees` | internal/installer/installer.go:308-342 | Activating the target and applying it to the state leaves configuration and state in agreement. |
| `InstallTransaction.TransactKeeps` | internal/installer/installer.go:308-342 | Whatever step a transaction stops at, the invariant of state, configuration and journal holds. |
| `InstallTransaction.DecisionFollowsActivation` | internal/installer/installer.go:362-411 | Recovery decides for the target exactly when activation committed, otherwise for the exact prior state. |
| `InstallTransaction.RecoverSettles` | internal/installer/installer.go:362-411 | A recovery that clears the journal leaves the target state or the exact prior state; with no journal it changes nothing. |
| `InstallTransaction.InterruptedTransactionRecovers` | internal/installer/installer.go:308-411 | A crash after any step of a transaction, then any number of interrupted recoveries and one that finishes: the journal is cleared, configuration and state agree, on the target exactly when activation committed. |
| `InstallTransaction.TransactOutcome` | internal/installer/installer.go:308-342 | What a transaction leaves for every failure outcome: when it runs, when it activates, and what the journal then says. |
| `InstallTransaction.ReachableStatesAreValid` | internal/installer/state.go:150-182 | In every reachable state the active and previous releases are installed, distinct and belong to their plugin. |
| `InstallTransaction.StepKeeps` | internal/installer/installer.go:155-411 | Install, rollback and recovery keep the invariant. |
| `InstallTransaction.CatalogNeverGoesBack` | internal/catalog/catalog.go:173-210 | The accepted catalog sequence never decreases over any run of installs, rollbacks, crashes and recoveries. |
| `InstallTransaction.Installer.TransactPlugin` | internal/installer/installer.go:308-342 | The in-place transaction equals the specification for every outcome of each write. |
| `InstallTransaction.Installer.RecoverInterrupted` | internal/installer/installer.go:362-411 | The in-place recovery equals the specification. |
| `InstallEffects.InstallEffect` | internal/installer/installer.go:155-235 | Over every run a complete install is refused exactly in the listed cases; otherwise the release is active, what was active is previous, catalog and installed releases are the new ones, the configuration names the release, and nothing else changes. |
| `InstallEffects.RollbackEffect` | internal/installer/installer.go:266-306 | Likewise a complete rollback: the wanted or previous release is active, what was active is previous; installed releases and catalog stay. |
| `InstallEffects.InstallThenRollback` | internal/installer/installer.go:413-431 | Installing over an active release and rolling back leaves that release active, the new one previous, and the configuration exactly as it was. |
| `InstallEffects.RecoverEffect` | internal/installer/installer.go:362-411 | A recovery whose writes succeed settles exactly if it can load everything and verify the release it decides for; otherwise nothing changes. |
| `InstallEffects.SwitchIsValid` | internal/installer/installer.go:413-431 | A switch to another release passes validation exactly if there is room for it. |
| `ReconcileAttempts.StepKeeps` | internal/daemon/reconciler_apply.go:40-251 | Each lock-held region keeps the invariant of revisions, attempts, candidate and generations. |
| `ReconcileAttempts.RevisionsInOrder` | internal/daemon/reconciler_apply.go:84-251 | In every reachable state finalized <= accepted <= the latest staged revision, and a correction is scheduled only for the accepted revision or the candidate's. |
| `ReconcileAttempts.GenerationsMatchDocument` | internal/daemon/reconciler_apply.go:127-209 | Every published generation belongs to an enabled app of the current document, and after an acceptance comes from the plan staged for this very document, closing included. |
| `ReconcileAttempts.OnlyTheActiveAttemptAccepts` | internal/daemon/reconciler_apply.go:127-209 | Accepted revision, generations and specs change only by a new document or by the active attempt of the current epoch, and then to the current candidate's revision. |
| `ReconcileAttempts.RevisionsOnlyGrow` | internal/daemon/reconciler_retry.go:141-197 | Over any run, within an epoch and as long as no new document is accepted, accepted and finalized revisions only grow; epochs only grow. |
| `ReconcileAttempts.RevisionsStep` | internal/daemon/reconciler_close.go:9-17 | The epoch changes only by a new document, which starts both numbers at zero, or by the one Close, which changes nothing else. |
| `ReconcileAttempts.SupersededChangesNothing` | internal/daemon/reconciler_apply.go:127-257 | A step of a superseded attempt changes no generation, spec, candidate or accepted revision. |
| `ReconcileAttempts.SupersededForGood` | internal/daemon/reconciler_apply.go:40-82 | A superseded attempt stays superseded. |
| `ReconcileAttempts.SupersededNeverWins` | internal/daemon/reconciler_apply.go:127-251 | Over any interleaving with other attempts, documents, retries and close, no step a superseded attempt takes changes them. |
| `ReconcileAttempts.Live.PreserveGenerations` | internal/daemon/reconciler_retry.go:141-197 | The loop keeps exactly the generations whose app is enabled with the same plugin and generation in the new document. |
| `ReconcileAttempts.Live.AcceptNewDocument` | internal/daemon/reconciler_retry.go:141-197 | The whole new live state after a document is accepted. |
| `ReconcileAttempts.Live.BeginOne` | internal/daemon/reconciler_apply.go:40-82 | Refused while closing, for another epoch, or beside an active attempt it does not replace; otherwise a fresh attempt number. |
| `ReconcileAttempts.Live.StageOne` | internal/daemon/reconciler_apply.go:84-125 | Only the active attempt of the current epoch stages, under a fresh revision. |
| `ReconcileAttempts.Live.CommitFinal` | internal/daemon/reconciler_apply.go:215-251 | Finalizes only a revision that is still the accepted one of the current epoch. |
| `ReconcileAttempts.Live.Finish` | internal/daemon/reconciler_apply.go:66-81 | Only the active attempt gives up its place. |
| `ReconcileAttempts.Live.GiveUpOperation` | internal/daemon/reconciler_desired.go:289-326 | An operation whose caller has gone leaves a correction for the current candidate, accepted or not, unless a retry is scheduled. |
| `ReconcileAttempts.Live.BeginClosing` | internal/daemon/reconciler_close.go:9-17 | Closing once, into an epoch of its own. |
| `ReconcileAttempts.Live.ReturnFromHost` | internal/daemon/reconciler_apply.go:127-209 | Whether the host's return is accepted, and the whole new live state. |
| `ReconcileEffects.AcceptedChanges` | internal/daemon/reconciler_apply.go:127-194 | Accepted revision, generations and specs become what the attempt applied exactly when it returns in success as the active attempt of the live epoch for the candidate; a new document keeps the matching generations; nothing else changes them. |
| `ReconcileEffects.FinalizedChanges` | internal/daemon/reconciler_apply.go:215-251 | A revision is finalized exactly by the last check of an attempt for which it is still accepted. |
| `ReconcileEffects.CandidateChanges` | internal/daemon/reconciler_apply.go:84-125 | The candidate is replaced exactly by a plan the active attempt stages, under the next revision. |
| `ReconcileEffects.CorrectionChanges` | internal/daemon/reconciler_apply.go:127-209 | Exactly when a correction is scheduled, for which revision, and when it is dropped. |
| `ReconcileEffects.ActiveChanges` | internal/daemon/reconciler_apply.go:40-82 | An attempt begins exactly for the live epoch with no other active or replaced; only the active attempt's own end makes room. |
| `ReconcileEffects.PhaseChanges` | internal/daemon/reconciler_apply.go:127-251 | An attempt goes on exactly as long as it finds itself current, and ends otherwise. |
| `ReconcileEffects.EpochChanges` | internal/daemon/reconciler_close.go:8-13 | A document and the one Close each advance the epoch; nothing else does. |
| `ReconcileEffects.AcceptedIsFinalized` | internal/daemon/reconciler_apply.go:127-251 | An attempt that returns as owner of the candidate and is not overtaken has its revision accepted and finalized with exactly the specs it applied, whatever other goroutines do between its steps. |
| `ReconcileEffects.NewAttemptCanFinish` | internal/daemon/reconciler_apply.go:13-251 | From every reachable state that is not closing a new attempt can replace those under way and get any plan of the document accepted and finalized. |
| `ForegroundSessions.StepKeeps` | internal/daemon/session_owner.go:111-305 | Every transition keeps the exclusion rules, the accounting of started sessions and the order of tokens. |
| `ForegroundSessions.OwnersExcludeEachOther` | internal/daemon/session_owner.go:111-305 | Critical ownership excludes a session, an admission and execution; execution needs a session and no admission; an admission's token is newer than the session's. |
| `ForegroundSessions.InvokedSessionsAreSettled` | internal/daemon/reconciler_operations.go:89-127 | Every session a plugin started and whose launch returned was promoted or had EndSession issued; a promoted one is in exactly one of foreground, ended, or reported gone. |
| `ForegroundSessions.DeparturesAreSettled` | internal/daemon/session_runtime.go:69-137 | A session leaving the foreground gets an EndSession call for its exact token exactly when the plugin side did not report the departure itself. |
| `ForegroundSessions.LeavesExactlyOnce` | internal/daemon/session_owner.go:139-215 | Over every run a promoted session leaves the foreground exactly once and for good, and EndSession is called for it at most once. |
| `ForegroundSessions.AdmissionIsUninterrupted` | internal/daemon/session_owner.go:282-305 | While the critical sequence a launcher admission recorded is unchanged, no critical presentation has owned the foreground since. |
| `ForegroundSessions.SessionCoordinator.BeginAdmission` | internal/daemon/session_owner.go:111-129 | Refused under critical ownership or execution; otherwise a fresh token. |
| `ForegroundSessions.SessionCoordinator.CancelAdmission` | internal/daemon/session_owner.go:131-137 | Only the exact pending admission is withdrawn. |
| `ForegroundSessions.SessionCoordinator.DropCriticalOwnership` | internal/daemon/session_owner.go:297-305 | Gives up critical ownership and says whether there was any. |
| `ForegroundSessions.SessionCoordinator.PromoteAdmission` | internal/daemon/session_owner.go:139-154 | Only the exact pending admission is promoted; returns the session it replaces. |
| `ForegroundSessions.SessionCoordinator.DetachSession` | internal/daemon/session_owner.go:156-171 | Clears a matching admission and a matching session, returning the latter. |
| `ForegroundSessions.SessionCoordinator.ClearSession` | internal/daemon/session_owner.go:173-187 | As the source: empty arguments match anything. |
| `ForegroundSessions.SessionCoordinator.CompleteSession` | internal/daemon/session_owner.go:189-215 | Only an exact match is cleared; invalidation is the case in which the admission is eligible. |
| `ForegroundSessions.SessionCoordinator.BeginExecuting` | internal/daemon/session_owner.go:242-261 | Only the exact live foreground session may execute, and its admission is dropped. |
| `ForegroundSessions.SessionCoordinator.TakeCriticalOwnership` | internal/daemon/session_owner.go:263-280 | Refused during execution; otherwise takes over, returning the session it displaced. |
| `ForegroundEffects.CriticalChanges` | internal/daemon/session_owner.go:263-305 | In every reachable state a critical presentation takes the foreground exactly unless something is executing, and then nobody else has it; it keeps it until released. |
| `ForegroundEffects.ForegroundChanges` | internal/daemon/session_owner.go:139-215 | The foreground session is replaced exactly by a promoted launch, and leaves exactly by a step that names it or by a critical presentation. |
| `ForegroundEffects.ExecutionChanges` | internal/daemon/session_owner.go:242-261 | Execution begins exactly for the live foreground session with nothing executing or critical, and ends exactly with that session. |
| `ForegroundEffects.AdmissionChanges` | internal/daemon/session_owner.go:111-225 | Exactly when an admission is given and withdrawn, and its token. |
| `ForegroundEffects.LaunchChanges` | internal/daemon/reconciler_operations.go:58-130 | A launch goes from admission through its plugin call to its decision. |
| `ForegroundEffects.OwedChanges` | internal/daemon/session_runtime.go:69-137 | EndSession becomes owed exactly for a session that leaves without its plugin's report and for a started one that is not promoted. |
| `ForegroundEffects.LaunchSucceeds` | internal/daemon/reconciler_operations.go:58-130 | An undisturbed launch puts its session in the foreground and owes EndSession to the one it replaces. |
| `AssetReadiness.StepKeeps` | internal/assets/reconciler.go:117-275 | Every device call, lock-held region and connection invalidation keeps: each published claim about a file is true of the device, unless the job in progress has just taken that file. |
| `AssetReadiness.ReadyIffPresent` | internal/assets/reconciler.go:333-337 | While a package is reported ready, all its assets are on the device with their declared digests if and only if no withdrawal in progress has already removed one of them. |
| `AssetReadiness.ReadyMeansPresent` | internal/assets/reconciler.go:333-337 | While a package is reported ready all its assets are on the device, unless a reconciliation of a disabled or assetless package of the same plugin is in progress. |
| `AssetReadiness.WithdrawalOpensWindow` | internal/assets/reconciler.go:140-178 | From any reachable idle state, any such reconciliation can leave any ready package of the plugin reported ready with a file missing. |
| `AssetReadiness.WithdrawalWindow` | internal/assets/reconciler.go:140-155 | A concrete run in which the package is still reported ready after its only file was removed: the state changes only when the removal is committed. |
| `AssetReadiness.ResolvedAssetsArePresent` | internal/assets/reconciler.go:371-407 | A path a ready plugin's scene resolves to is the path of the declaration with that source, and its file is on the device under the same condition. |
| `AssetReadiness.FaultFreeReconcileReadies` | internal/assets/reconciler.go:117-218 | From every reachable idle state a fault-free reconciliation of a valid enabled package ends ready with every asset in place. |
| `AssetReadiness.ReconnectKeeps` | internal/assets/reconciler.go:341-360 | An invalidation leaves no claim about the device, whatever the device then holds. |
| `AssetReadiness.UploadKeeps` | internal/assets/reconciler.go:186-214 | An upload, even a failed one, never overwrites a file anything claims. |
| `AssetReadiness.Reconciler.SetState` | internal/assets/reconciler.go:453-465 | The lock-held region for an invalid package; nothing when the connection has changed. |
| `AssetReadiness.Reconciler.PendingObserved` | internal/assets/reconciler.go:476-484 | The lock-held region that keeps what was verified so far. |
| `AssetReadiness.Reconciler.CommitState` | internal/assets/reconciler.go:486-504 | The lock-held region that publishes a verified package. |
| `AssetReadiness.Reconciler.Invalidate` | internal/assets/reconciler.go:341-360 | The loop over the plugins blanks exactly the tracked ones. |
| `AssetEffects.FaultFreeWithdrawal` | internal/assets/reconciler.go:139-179 | From every reachable idle state, reconciling a disabled or assetless package can finish with every known file of the plugin off the device, all others untouched and the cache empty of them. |
| `AssetEffects.FaultFreeCollection` | internal/assets/reconciler.go:222-275 | From every reachable idle state, a collection for a ready package can finish with exactly the unwanted known files off the device and out of the cache, the package still ready. |
| `AssetEffects.FailureEffect` | internal/assets/reconciler.go:181-215 | What each failing step leaves: error or pending, with the files verified and not yet removed so far. |
| `AssetEffects.InvalidPackageEffect` | internal/assets/reconciler.go:128-132 | An invalid package is an error with nothing to resolve; what is known of its files stays. |
| `AssetEffects.SettledPackageEffect` | internal/assets/reconciler.go:133-136 | A package whose result is known asks nothing of the device. |
| `AssetEffects.VerifiesOnce` | internal/assets/reconciler.go:194-210 | A recorded digest is not read back; otherwise the file is read back first and uploaded only if the device does not hold it. |
| `AssetEffects.ReconnectEffect` | internal/assets/reconciler.go:341-360 | Exactly the plugins with known files or paths become pending, with fingerprints forgotten and digests blank. |
| `DeviceOutput.StepKeeps` | internal/device/output.go:120-204 | Every step of callers, worker, Close and coordinator keeps the counting, queue and answer invariants. |
| `DeviceOutput.ResultsInQueueOrder` | internal/device/output.go:120-172 | The k-th result goes to the k-th queued command, none gets two, and when the worker has exited every queued command was answered and the stop command was the last. |
| `DeviceOutput.DeviceSeesQueueOrder` | internal/device/output.go:120-142 | Device operations happen once each, in queue order, never for an expired command. |
| `DeviceOutput.ReturnedResultIsOwn` | internal/device/output.go:148-172 | The result a caller gets is its own command's. |
| `DeviceOutput.RefusedCommandHasNoEffect` | internal/device/output.go:148-172 | A command refused because the output is closing was never queued and never reaches the device. |
| `DeviceOutput.AdmissionsCloseOnce` | internal/device/output.go:186-204 | admissionsDone is closed at most once, exactly when closing has started and nobody is still sending. |
| `DeviceOutput.StopIsLastEver` | internal/device/output.go:340-370 | Nothing is admitted after closing starts, and nothing is ever queued after the stop command. |
| `DeviceOutput.SendsNeverBlock` | internal/device/output.go:120-142 | The worker never blocks on a result channel. |
| `DeviceOutput.ClosingNeverGrows` | internal/device/output.go:340-370 | While closing, no step adds work and every internal step uses some up. |
| `DeviceOutput.ClosingCanStep` | internal/device/output.go:340-370 | Until it has exited a closing actor always has such a step. |
| `DeviceOutput.CloseReachesExit` | internal/device/output.go:340-370 | So from any closing state the actor reaches its exit. |
| `DeviceOutput.OutputLifecycle.Begin` | internal/device/output.go:186-194 | Admission counting in place. |
| `DeviceOutput.OutputLifecycle.Finish` | internal/device/output.go:196-204 | The last admitted caller closes admissionsDone, once. |
| `DeviceOutput.OutputLifecycle.Close` | internal/device/output.go:340-356 | Only the first Close starts the coordinator. |
| `OutputEffects.ReturnedChanges` | internal/device/output.go:148-172 | A call ends refused exactly when closing, without a result exactly when its context ends, else with what its own channel holds. |
| `OutputEffects.AdmittedChanges` | internal/device/output.go:152-165 | Admitted unless closing, and until it has sent or given up sending. |
| `OutputEffects.QueuedChanges` | internal/device/output.go:155-157 | Exactly an admitted caller with room in the queue becomes queued. |
| `OutputEffects.WaitingChanges` | internal/device/output.go:166-171 | It then waits until it receives or gives up. |
| `OutputEffects.ClosingChanges` | internal/device/output.go:340-370 | The first Close starts the closing and its coordinator. |
| `OutputEffects.QueueChanges` | internal/device/output.go:120-165 | What enters the queue, when, and that the worker takes the oldest. |
| `OutputEffects.WorkerChanges` | internal/device/output.go:120-142 | The worker exits at the stop command, skips an ended context, and otherwise performs the command and answers with that operation's own result. |
| `OutputEffects.SlotsChange` | internal/device/output.go:148-172 | A result channel is filled by the worker's answer and emptied by its caller. |
| `OutputEffects.ReturnedIsProduced` | internal/device/output.go:120-172 | Over every run: what a caller returns with is what its own operation returned earlier in the run, or that its turn came after its context had ended. |
| `OutputEffects.OperationResultIsTheAnswer` | internal/device/output.go:120-172 | Once an operation has returned, its caller can get no other result in any continuation. |
| `OutputEffects.AdmittedCallersCanBeServed` | internal/device/output.go:120-172 | In every reachable state, closing included, an admitted caller can still be served, with whatever its operation returns if it has no result yet. |
| `ReleasePublication.StepKeeps` | cmd/releasectl/publish_reconcile.go:10-117 | Every step of the publisher, with each remote call done, done but reported failed, or not done, keeps what the stage it is in promises about the remote. |
| `ReleasePublication.ConflictChangesNothing` | cmd/releasectl/publish_reconcile.go:17-42 | With an invalid plan or a conflicting release no run changes the remote, and none succeeds. |
| `ReleasePublication.PublishedNeverChanges` | cmd/releasectl/publish_reconcile.go:44-84 | Over every run, with any failures and restarts, a published release never changes again and releases outside the plan never change. |
| `ReleasePublication.NothingPublishedEarly` | cmd/releasectl/publish_reconcile.go:86-105 | Whenever a release becomes published every release of the plan is already complete. |
| `ReleasePublication.SuccessIsComplete` | cmd/releasectl/publish_reconcile.go:106-116 | A success leaves every release published and complete. |
| `ReleasePublication.CompleteIsExact` | cmd/releasectl/publish_reconcile.go:175-212 | Complete means exactly the declared assets: each once, with its size and digest, and nothing else. |
| `ReleasePublication.RerunCompletesIffNoConflict` | cmd/releasectl/publish_reconcile.go:10-117 | After any interrupted run a fault-free rerun publishes the whole plan if and only if the plan and the built commit are valid and the remote did not conflict with the plan to begin with. |
| `ReleasePublication.UploadOne` | cmd/releasectl/publish_reconcile.go:189-212 | Uploading the first missing asset leaves exactly the rest missing. |
| `ReleasePublication.ValidateReleaseSpec` | cmd/releasectl/publish_reconcile.go:158-173 | Accepts exactly valid specifications. |
| `ReleasePublication.InspectDraftRelease` | cmd/releasectl/publish_reconcile.go:119-156 | Succeeds exactly on acceptable drafts, and returns exactly the catalog assets to replace. |
| `ReleasePublication.MissingReleaseAssets` | cmd/releasectl/publish_reconcile.go:189-212 | Succeeds exactly when every remote asset is expected once, and returns the declared assets not there yet. |
| `PublicationEffects.FailedCallEndsRun` | cmd/releasectl/publish_reconcile.go:10-117 | A call that reports a failure ends the run, whether or not it took effect. |
| `PublicationEffects.DraftsChangeOnlyAsPlanned` | cmd/releasectl/publish_reconcile.go:44-95 | At every step of every run a release of the plan keeps identity and title and never becomes a draft again; an asset goes only as a catalog file of another build and comes only if declared and missing; a new release is an empty draft. |
| `PublicationEffects.DraftAcceptedExactly` | cmd/releasectl/publish_reconcile.go:119-156 | A draft is accepted exactly if each asset, no name twice, is as built or a replaceable catalog file of another build. |
| `ConfigGenerations.SameGenerationIffUnchanged` | internal/config/store.go:363-383 | Two committed documents give an app the same generation if and only if it was unchanged, plugin record included, in every commit between them; generations never go down. |
| `ConfigGenerations.GenerationIdentifiesConfiguration` | internal/config/store.go:363-383 | The same generation means the same configuration and the same plugin record. |
| `ConfigGenerations.RecreatedIsNewer` | internal/config/store.go:363-377 | A deleted and recreated app gets a generation larger than any it had before. |
| `ConfigGenerations.CommittedDocumentsAreValid` | internal/config/store.go:165-219 | Committed generations count up by one and never wrap; no app generation exceeds its document's. |
| `ConfigGenerations.ConfigStore.AssignGenerations` | internal/config/store.go:363-377 | The loop over the apps assigns exactly the specified generations, in any order. |
| `ConfigGenerations.ConfigStore.ReplaceWithOutcome` | internal/config/store.go:165-188 | The new file and history for every expected generation and I/O outcome. |
| `ConfigGenerations.ConfigStore.UpdateDocument` | internal/config/store.go:192-219 | Likewise for an update. |
| `ConfigGenerations.CommitEffect` | internal/config/store.go:165-219 | Exactly when something is committed, and that it is what was requested, each application with its old generation if unchanged and the document's own if not. |
| `CheckpointStore.StepKeeps` | internal/checkpoint/store.go:118-280 | Every Save, Load, Reset and Reconcile with any failures keeps the inventory covering the directory; from an exact inventory the next one is exact unless the operation is the reset described below. |
| `CheckpointStore.InventoryCoversDisk` | internal/checkpoint/store.go:305-360 | From any directory and over any run: an initialized store is within the aggregate limit, its counts are its inventory's, and every checkpoint on disk is in it. |
| `CheckpointStore.InventoryEqualsDisk` | internal/checkpoint/store.go:118-280 | The inventory and the reported counts are exactly the disk's after every operation of any run in which no reset removes a file it could not read. |
| `CheckpointStore.OnlyUnreadResetLoses` | internal/checkpoint/store.go:213-239 | From an exact state the next operation loses exactness if and only if it is a reset that removes the file without having read it. |
| `CheckpointStore.UnreadResetExample` | internal/checkpoint/store.go:213-239 | Such a run: the file is gone, the inventory and the counts still hold it. |
| `CheckpointStore.ReconcileRestores` | internal/checkpoint/store.go:242-280 | A reconciliation whose scan succeeds makes the inventory exact again, keeps every active checkpoint and, if nothing fails, only those. |
| `CheckpointStore.CheckpointSurvives` | internal/checkpoint/store.go:118-280 | A checkpoint stays on disk over any failures and restarts until it is saved again, reset or left out of a reconciliation. |
| `CheckpointStore.LoadReturnsDisk` | internal/checkpoint/store.go:166-210 | A readable load returns what is on disk and nothing for a checkpoint that is not there. |
| `CheckpointStore.SaveThenLoad` | internal/checkpoint/store.go:118-162 | A committed save is what a later load returns, exactly when it fits within the aggregate limit; otherwise the old checkpoint is. |
| `CheckpointStore.TotalBytes` | internal/checkpoint/store.go:443-449 | The sum of the sizes, whatever the order. |
| `CheckpointStore.ScanDirectory` | internal/checkpoint/store.go:305-338 | The loop over the entries keeps and discards what the specification says, within the aggregate limit. |
| `CheckpointStore.Checkpoints.ScanLocked` | internal/checkpoint/store.go:305-352 | The inventory after a scan and whether it is initialized. |
| `CheckpointStore.Checkpoints.SaveCheckpoint` | internal/checkpoint/store.go:118-162 | The new state for every key, data and outcome. |
| `CheckpointStore.Checkpoints.SaveLocked` | internal/checkpoint/store.go:129-161 | Capacity check, write and counts. |
| `CheckpointStore.Checkpoints.LoadCheckpoint` | internal/checkpoint/store.go:166-210 | State and result for every outcome. |
| `CheckpointStore.Checkpoints.ResetCheckpoint` | internal/checkpoint/store.go:213-239 | The new state for every outcome. |
| `CheckpointStore.Checkpoints.ReconcileActive` | internal/checkpoint/store.go:242-280 | The new state for every outcome. |
| `CheckpointEffects.SaveEffect` | internal/checkpoint/store.go:118-162 | A save replaces exactly its own checkpoint, exactly if it is admissible, is written and fits beside the others. |
| `CheckpointEffects.ResetEffect` | internal/checkpoint/store.go:213-239 | A reset removes exactly its own checkpoint, exactly if the key is valid and the file can be removed. |
| `Identifiers.DecodeEncode` | internal/identifier/identifier.go:33-42 | Decoding an encoded identifier gives back its parts. |
| `Identifiers.EncodeIsInjective` | internal/identifier/identifier.go:33-42 | Different part lists never collide. |
| `AttentionTables.SortIs` | internal/daemon/attention_state.go:335-363 | Sorting by the eviction comparator gives a sorted permutation. |
| `AttentionTables.EvictionIsDetermined` | internal/daemon/attention_state.go:335-354 | Evicting n entries so that everything evicted precedes everything kept leaves one possible result. |
| `AttentionTables.PruneCombined` | internal/daemon/attention_state.go:189-217 | Exactly the excess goes, absent before live, older before newer, and each removal is counted once. |
| `AttentionTables.EvictAbsent` | internal/daemon/attention_state.go:116-136 | Absent entries go, oldest first, until the table fits or only live ones are left. |
| `AttentionTables.ExpireShown` | internal/daemon/attention_state.go:91-101 | Exactly the expired entries go, each counted. |
| `AttentionTables.ExpireAcks` | internal/daemon/attention_state.go:141-157 | Exactly the expired and the superseded acknowledgements go, counted apart. |
| `AttentionTables.PruneTables` | internal/daemon/attention_state.go:84-217 | After a prune nothing is past its time to live, the excess over the capacity goes in eviction order as from both tables at once, and every removal is counted once. |
| `AttentionTables.StagesEvictFirst` | internal/daemon/attention_state.go:84-217 | The three pruning stages together evict exactly what one eviction from both tables at once would. |
| `AttentionTables.PruneIsDetermined` | internal/daemon/attention_state.go:84-217 | So the result of a prune is determined. |
| `AttentionTables.PruneKeepsFresh` | internal/daemon/attention_state.go:84-157 | What stays is within its time to live and not superseded; if all of that fits, all of it stays. |
| `AttentionDocuments.ValidateStateDocument` | internal/attention/state.go:184-214 | Accepts exactly valid documents. |
| `AttentionDocuments.StateDocument` | internal/daemon/attention_state.go:270-319 | The document holds each saved entry once and nothing else. |
| `AttentionDocuments.SavedIsValid` | internal/attention/state.go:184-214 | A list of exactly the entries of admitted tables is a valid document: valid identities, nonzero times, no identifier twice, within the limit. |
| `AttentionDocuments.SavedDocumentsAreValid` | internal/daemon/attention_state.go:321-327 | Over every run of the engine, with any capacity up to the document limit, every document it can save passes validation. |
| `AttentionDocuments.RestoreShownAfterSave` | internal/daemon/attention_state.go:16-77 | Restoring a saved document brings back exactly the last-shown times that are still restorable, as they were. |
| `AttentionDocuments.RestoreAcksAfterSave` | internal/daemon/attention_state.go:16-77 | Likewise for acknowledgements. |
| `AttentionDocuments.NewAcknowledgementSurvives` | internal/daemon/attention_state.go:227-264 | A new acknowledgement is evicted at once if and only if the tables are full and every other entry is later in eviction order. |
| `AttentionDocuments.SameIdSameParts` | internal/daemon/attention_state.go:329-333 | An identifier determines an identity up to its generation. |
| `AttentionDocuments.Engine.PruneState` | internal/daemon/attention_state.go:84-114 | Pruning in place, with the running counts. |
| `AttentionDocuments.Engine.ShowWinner` | internal/daemon/engine.go:299-312 | Recording a shown identity, then pruning. |
| `AttentionDocuments.Engine.AcknowledgeRecord` | internal/daemon/engine.go:460-513 | Pruning always happens; the bounded acknowledgement takes effect only once it is saved. |
| `AttentionDocuments.SavedShownsAre` | internal/daemon/attention_state.go:279-301 | Which last-shown times are saved, and under whose identity. |
| `AttentionDocuments.ShowEffect` | internal/daemon/engine.go:299-312 | A shown identity is recorded at that time, unless the tables are full and everything kept is later in eviction order; others are only pruned. |
| `AttentionDocuments.AcknowledgeEffect` | internal/daemon/engine.go:460-513 | The acknowledgement records the observation present now; if there is room nothing else changes. |
| `MachOIdentity.InsertionAddsOneCommand` | cmd/releasectl/macho.go:87-108 | The length stays, only two header fields and the 24 bytes after the table change, and the load commands read back as the old list and one LC_UUID. |
| `MachOIdentity.SecondInsertionRefused` | cmd/releasectl/macho.go:83-85 | A second insertion is refused. |
| `MachOIdentity.Uuid` | cmd/releasectl/macho.go:97-100 | Version and variant bits as in sections 4.2 and 4.1 of RFC 9562; every other bit is the digest's. |
| `MachOIdentity.CheckInsertable` | cmd/releasectl/macho.go:62-96 | Accepts exactly a well-formed table without a UUID, followed by zero padding. |
| `MachOIdentity.ScanCommands` | cmd/releasectl/macho.go:73-90 | The offset loop accepts exactly what the independent reader accepts without a UUID. |
| `MachOIdentity.AddUuid` | cmd/releasectl/macho.go:62-108 | On the array: refused and unchanged, or the specified contents. |
| `AnimationCodec.MergeShowsTheSame` | cmd/previewgen/render.go:80-97 | Merging equal neighbours keeps the total delay and what is on show at every moment. |
| `AnimationCodec.CoalesceFrames` | cmd/previewgen/render.go:80-97 | The loop merges, or refuses an empty or invalid source. |
| `AnimationCodec.ChangedBounds` | cmd/previewgen/render.go:99-115 | The least rectangle outside which two frames agree. |
| `AnimationCodec.EmptyIffEqual` | cmd/previewgen/render.go:99-115 | It is empty if and only if the frames are equal. |
| `AnimationCodec.EncodeRaw` | cmd/previewgen/capture.go:326-361 | Each merged frame is stored whole at first and then as its least changed rectangle; the branch for an empty rectangle is never taken. |
| `AnimationCodec.DecodeAnimation` | cmd/previewgen/fixtures.go:131-151 | Drawing in place on one canvas gives the decoded frames; refuses a wrong size, a loop count other than zero, no images, a delay that is not positive and any other disposal. |
| `AnimationCodec.DecodeInvertsEncode` | cmd/previewgen/fixtures.go:131-151 | Decoding what was stored gives back the frames one for one, each pixel through the palette, if and only if there is more than one and every delay fits in 16 bits. |
| `AnimationCodec.StillIsRefused` | cmd/previewgen/fixtures.go:136-138 | A single stored frame is refused whatever its delay, since its file holds no loop count. |
| `AnimationCodec.StillCaptureIsRefused` | cmd/previewgen/capture.go:326-361 | So is every source all of whose images are equal, however many there are. |
| `AnimationCodec.StillMergesToOne` | cmd/previewgen/render.go:80-97 | A source merges to one frame if and only if all its images are equal. |
| `AnimationCodec.BlankCaptureExample` | cmd/previewgen/capture.go:326-361 | A capture of one blank screen taken twice is encoded and then refused by the decoder. |
| `AnimationCodec.PreviewShowsTheSource` | cmd/previewgen/capture.go:326-361 | For a source that is not a still and whose merged delays fit: at every moment the decoded animation shows what the source showed, through the palette, and the total delay is the same. |

## Left out

- Session input broker: status counters, building the target map in Apply, the failure callback, and wrap-around of the 64-bit sequence; Cancel, Complete and the lock-held part of publish are one step each, the rejections they send aside.
- Decision ledger: the encoding of traces (a record has a sequence, a material key and a length), temporary archive files, status, History and Explain.
- Installer: downloading, signatures, package verification and manifest projection (booleans supplied by the environment); the size bound of the journal documents counts as a failed write.
- Reconciliation: retry times and attempt counts, readiness of single apps (whether a retry is already scheduled is supplied), the plugin host, and quiesceUnreadyPackagePlugins, which rebuilds generations from specs a new document does not reset.
- Foreground sessions: lifecycle diagnostics, the observation source of a session, and order between the calls made after a transition; admission arguments are taken as non-empty, as validated configuration gives them.
- Asset readiness: counts and versions in the reported state, retry times, a reconciler without a device, package path and root checks beyond those listed in `ValidAssets`, and the order in which files are removed.
- Device output: status phases, error codes, read limits and the individual device operations.
- Publication: the GitHub client, downloads, and partial uploads.
- Configuration: validation other than generations and cross-references, secrets, and the file format.
- Checkpoints: JSON canonicalisation, failure counters, permissions, files the scan ignores, and the sorted order in which removals stop at a failure (any subset may be removed).
- Attention: selection and rendering, and the fallback for acknowledgements without an identity, which admitted acknowledgements never lack; UTF-8 validity of identifiers.
- Mach-O: reading and writing the file, the digest itself and code signing.
- Preview animations: byte format and compression of GIF beyond the delay and loop count fields, the LED rendering path and transparent palette.
- Not modelled at all: input routing, the gateway's digest cache, launcher and usage scenes, HTTP, sockets, keychain, launchd, locks on files, telemetry and command line parsing.
