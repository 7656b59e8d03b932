# Sigil host: verified models

A Dafny 4.11 model of the parts of Sigil that have to stay right across crashes,
concurrency and untrusted input, with proofs of what they promise. Check it with
`dafny verify dfyconfig.toml`.

**Configuration transaction** (`ConfigFiles`, `RuntimeStatus`, `ConfigPlans`,
`ConfigManager`, `ConfigLedger`, `ConfigSafety`, `ConfigEdits`, `ConfigAnswers`, `ConfigRefusals`, `ConfigRuns`,
`ConfigTheorems`, `ConfigSteps`, `ConfigOutcomes`, `ConfigProgress`, `ConfigDirectories`, `ConfigRealms`). `set`,
`commit`, `rollback` and service start drive four files: the live configuration, a base copy, a candidate copy
and a journal. `ConfigPlans` gives each
call as the durable steps it takes and its answer; the class `ConfigStore` performs the
calls field by field and is proved to take exactly those steps, and on running out of
`fuel` (the process dies, or a durable step fails) exactly the first `fuel` of them.
`ConfigRuns` is the system as one state directory sees it: any number of processes, one
durable step at a time, with a crash possible between any two steps, the lifecycle lock,
the transaction lock and one lock per runtime directory, daemons that publish status,
unrelated daemons, stray status files, and edits of the live file by anybody whenever no
call is under way, open transaction or not. A history that the program never reads
(`Ledger`, `begunAt`, `daemons`, `reports`) lets the theorems speak of what happened when.
`ConfigDirectories` and `ConfigRealms` are the system over any number of state directories,
where each call goes to the one that the live document names; a run of it is proved to be,
for each directory, a run of `ConfigRuns`, so that every theorem there holds of each.

**Status publisher** (`StatusPublisher`, `StatusProgress`). The heartbeat task and the foreground calls as
an interleaving of single atomic loads and stores under the write lock.

**Authorization store** (`Invitation`, `Authorization`, `AuthorizationLaws`,
`AuthorizationEffects`, `AuthorizationText`, `AuthorizationReading`, `AuthorizationStore`,
`AuthorizationOpening`, `AuthorizationRefusals`, `AuthorizationRuns`).
Enrolments, the replay ledger, the audit ring, migration from version 1 and the text of
the document; the class `Store` clones, changes, validates, writes and publishes as the
program does. Runs mix calls whose writes succeed, fail, or are renamed
into place and still reported as failed, crashes and reopenings.

**Managed settings** (`ManagedSettings`, `ManagedTransaction`). The edit of the TOML
document against the decoded configuration, as a lens, and the bytes the transaction
moves as the text of that document.

**Workflow policy parser** (`PolicyText`, `PolicyGrammar`, `PolicyParser`,
`PolicyScalars`, `PolicyPrinter`, `PolicyConservation`, `PolicyNoise`, `PolicyRejections`). The indentation parser as mutually
recursive methods over an index, proved equal to functions of the lines left; a printer
it inverts in every layout; what it keeps, what it ignores and what its errors say.

**Media** (`RtpPacket`, `RtpClock`, `AudioReceiver`, `AnnexB`, `PointerMapping`). RTP
parsing, the 32-bit presentation clock, the receive loop, H.264 start codes to length
prefixes, and pointer scaling. `BigEndian`, `Buffers`, `Division` and `Prelude`
are shared.

SHA-256 is an injective function, random identifiers are fresh, Ed25519 and base64url are
lawful functions (section 5.1 of RFC 8032, section 5 of RFC 4648), atomic write and remove
are single steps. Clocks, random draws, queue answers, TOML validity and the results of
durable writes are parameters.

Seven properties one might expect are false of the code. Each has its failing input and
the exact condition under which it holds:

- while a transaction is open, an edit of the live file that its journal cannot accept
  makes every call refuse without a step if and only if the edited document names the
  transaction's state directory, when no other directory has a transaction
  (`FailsClosedIffNamed`; in general, if and only if the directory it does name cannot
  accept it, `RefusesIffUnaccepted`, and so at every instant of every run,
  `RefusedExactlyWhenUnaccepted`). A document that names another directory is run, and
  replaced, as if there were no transaction (`EditEscapes`, `EscapeExists`);
- memory and disk agree after a successful call if and only if they agreed before or the
  call wrote (`SuccessAgreesIff`); a write that is renamed into place and then reported as
  failed parts them (`RenamedWriteParts`), a reconnect that has nothing to write can then
  succeed while they differ (`SuccessCanDiffer`), and the next opening joins them again;
- a snapshot, degraded or not, carries an error if and only if its writer read last after
  some `mark_degraded` had recorded one (`SnapshotHasErrorIff`). So a degraded one may
  lack it: a heartbeat falls between the two stores of `mark_degraded`
  (`DegradedMayPrecedeItsError`), or its second store never happens because the clock
  cannot be read (`FailedClockLosesItsError`). After a `mark_degraded` that returned
  success every snapshot has one (`DegradedReturnedThenError`);
- sixty seconds is the largest clock regression under which no invitation can be
  redeemed twice: one second more is too much (`LargerRegressionReplays`);
- the 64-bit microsecond product of the RTP clock saturates, so the clock is exact
  only up to `EXACT` samples, unless both clocks have reached the largest time
  (`RefinesUnboundedClock`, `AnchoredIsIdealIff`);
- a remark is not always read as one. Behind a scalar it never shows (`ScalarBeforeRemark`,
  `QuotedBeforeRemark`); beside a key with nothing else on its line it is the value
  (`RemarkBesideKeyIsValue`), and behind the mark of a block scalar it makes the mark the
  value (`RemarkBehindOpenerEndsIt`);
- a comment can change what a workflow means: one that ends a block scalar with deeper
  lines behind it turns them from text into an error (`CommentCanMatter`, and
  `RemarkMatters` for the whole family). A document is accepted if and only if it is
  without such a comment (settled) and accepted without its noise, and then with the same
  tree (`AcceptedIffSettledAndClean`); what is accepted without its noise reads the same
  with it if and only if it is settled (`ReadsSameIffSettled`).

## Model

| member | source | states |
|---|---|---|
| ConfigManager.ConfigStore.Step | crates/sigil-host/src/secure_state.rs:204-277 | one atomic replace or remove changes one file, or the process dies and nothing changed |
| ConfigManager.ConfigStore.CleanupTransaction | crates/sigil-host/src/config_management.rs:980-991 | base, candidate and journal go in that order, cut short anywhere; the live file stays |
| ConfigManager.ConfigStore.FinishPrepared | crates/sigil-host/src/config_management.rs:518-540 | recovery of a prepared journal takes exactly the planned steps and answers as planned |
| ConfigManager.ConfigStore.FinishRollingBack | crates/sigil-host/src/config_management.rs:570-586 | recovery of a rolling-back journal takes exactly the planned steps and answers as planned |
| ConfigManager.ConfigStore.RecoverTransaction | crates/sigil-host/src/config_management.rs:506-588 | recovery takes exactly the planned steps, as many as it survives, and hands back the live document |
| ConfigManager.ConfigStore.SetConfig | crates/sigil-host/src/config_management.rs:265-344 | `set` leaves the disk as its plan says after every possible point of death, and answers as planned otherwise |
| ConfigManager.ConfigStore.SetAfterRecovery | crates/sigil-host/src/config_management.rs:284-343 | the part of `set` after recovery takes exactly its planned steps, as many as it survives, and answers as planned |
| ConfigManager.ConfigStore.Install | crates/sigil-host/src/config_management.rs:313-335 | copies, prepared journal, live file and pending journal are written in that order |
| ConfigManager.ConfigStore.CommitTransaction | crates/sigil-host/src/config_management.rs:346-426 | `commit` leaves the disk as its plan says after every possible point of death, and answers as planned otherwise |
| ConfigManager.ConfigStore.CommitAfterRecovery | crates/sigil-host/src/config_management.rs:380-425 | the part of `commit` after recovery takes exactly its planned steps, as many as it survives, and answers as planned |
| ConfigManager.ConfigStore.RollbackTransaction | crates/sigil-host/src/config_management.rs:428-472 | `rollback` leaves the disk as its plan says after every possible point of death, and answers as planned otherwise |
| ConfigManager.ConfigStore.RollbackAfterRecovery | crates/sigil-host/src/config_management.rs:436-471 | the part of `rollback` after recovery takes exactly its planned steps, as many as it survives, and answers as planned |
| ConfigManager.ConfigStore.Restore | crates/sigil-host/src/config_management.rs:457-471 | the journal turns rolling-back before the base is put back, cleanup comes last |
| ConfigManager.ConfigStore.PrepareService | crates/sigil-host/src/config_management.rs:595-625 | service start recovers, checks the paths and hands the daemon the document that is then live |
| RuntimeStatus.EvidenceIsAFreshCleanStop | crates/sigil-host/src/appliance.rs:1051-1081 | evidence is accepted if and only if the document is an error-free, ready stop of the named instance on the candidate, at most ten seconds old and five ahead |
| RuntimeStatus.LatestReadsIff | crates/sigil-host/src/appliance.rs:934-957 | reading the baseline fails if and only if the file is unreadable, another host's or names no proper instance; there is none if and only if there is no file; otherwise it is the instance in the file, whatever its age |
| RuntimeStatus.ObservationIs | crates/sigil-host/src/appliance.rs:718-800 | exactly which status documents are refused, which are fresh, and what little is told of a stale or missing one |
| ConfigLedger.RecoveryIsSafe | crates/sigil-host/src/config_management.rs:506-588 | from every consistent state recovery succeeds, every prefix of it is consistent, and it settles the files |
| ConfigLedger.SafeMeansEveryPrefix | crates/sigil-host/src/config_management.rs:506-588 | a safe sequence of steps may be cut anywhere and the rest is still safe |
| ConfigSafety.SetIsSafe | crates/sigil-host/src/config_management.rs:265-344 | `set`, working in the directory that a loading live document names, keeps the crash invariant after every durable step from a consistent state and rewrites no history |
| ConfigSafety.CommitIsSafe | crates/sigil-host/src/config_management.rs:346-426 | `commit` from a consistent state keeps the crash invariant after every durable step, whatever the status file holds |
| ConfigSafety.RollbackIsSafe | crates/sigil-host/src/config_management.rs:428-472 | `rollback` from a consistent state keeps the crash invariant after every durable step |
| ConfigSafety.ServiceIsSafe | crates/sigil-host/src/config_management.rs:595-625 | service start from a consistent state keeps the crash invariant after every durable step |
| ConfigSafety.RecoveryConverges | crates/sigil-host/src/config_management.rs:506-588 | every effective step lowers the remaining work by one and never moves the state recovery heads for |
| ConfigSafety.RecoveryIsCrashProof | crates/sigil-host/src/config_management.rs:506-588 | after any number of recoveries cut short anywhere, one that is not succeeds, ends where an undisturbed one would, and a second changes no file |
| ConfigSafety.ForeignLiveFailsClosed | crates/sigil-host/src/config_management.rs:529-580 | of the calls that work in a directory, all fail without a durable step when the live document is neither base nor candidate of the journal there |
| ConfigSafety.OutsideEditToleratedIff | crates/sigil-host/src/config_management.rs:517-587 | exactly which live documents a recovery that works in this directory accepts in each journal state; refusing takes no step |
| ConfigEdits.AcceptedIsConsistent | crates/sigil-host/src/config_management.rs:517-587 | files edited by anybody are consistent with history again if and only if recovery tolerates the live document |
| ConfigEdits.RecoversIffAccepted | crates/sigil-host/src/config_management.rs:506-588 | after any edit of the live file a recovery that works in this directory succeeds if and only if it tolerates that document, and otherwise takes no step |
| ConfigEdits.UnacceptedIsRefused | crates/sigil-host/src/config_management.rs:265-625 | of the calls that work in a directory whose recovery does not tolerate the live document, all fail without a durable step |
| ConfigAnswers.RecoveryMeans | crates/sigil-host/src/config_management.rs:506-588 | on consistent files recovery always succeeds, ends where history says it must, and names what it completed |
| ConfigAnswers.SetSucceedsIff | crates/sigil-host/src/config_management.rs:265-344 | `set` succeeds if and only if nothing is undecided, the settled live revision is the expected one and its edit loads and keeps the paths, and, when it changes anything, a baseline could be read (`LatestReadsIff` says when); then exactly base, candidate, live and a bound pending journal are left |
| ConfigAnswers.CommitSucceedsIff | crates/sigil-host/src/config_management.rs:346-426 | `commit` succeeds if and only if the transaction is open in its bound directory and already committing, or undecided and proved healthy by a new instance; then exactly the candidate is left |
| ConfigAnswers.RollbackSucceedsIff | crates/sigil-host/src/config_management.rs:428-472 | `rollback` succeeds if and only if the transaction is open and not committing; then exactly the bytes before `set` are left |
| ConfigAnswers.ServiceSucceedsIff | crates/sigil-host/src/config_management.rs:595-625 | service start succeeds if and only if a transaction is open or the live document loads; the daemon gets the settled document |
| ConfigAnswers.RollbackUndoesSet | crates/sigil-host/src/config_management.rs:265-472 | a `set` that changed anything can at once be rolled back, and the two leave exactly the text from before |
| ConfigRefusals.ForeignJournalRefusal | crates/sigil-host/src/config_management.rs:886-918 | a journal that is not understood stops every recovery without a step, with the code of the first thing wrong with it |
| ConfigRefusals.ArtifactReadsIff | crates/sigil-host/src/config_management.rs:852-873 | a stored copy is taken if and only if it is there, of a possible size and the one the journal names |
| ConfigRefusals.RecoveryRefusal | crates/sigil-host/src/config_management.rs:506-588 | a recovery that does not tolerate an edited live document says conflict, unless the copy to restore is of no possible size |
| ConfigRefusals.SetRefusals | crates/sigil-host/src/config_management.rs:265-344 | each error code of `set`, if and only if its own cause is the first that applies, and no other code |
| ConfigRefusals.CommitRefusals | crates/sigil-host/src/config_management.rs:346-426 | each error code of `commit`, if and only if its own cause is the first that applies, and no other code |
| ConfigRefusals.RollbackRefusals | crates/sigil-host/src/config_management.rs:428-472 | each error code of `rollback`, if and only if its own cause is the first that applies, and no other code |
| ConfigRefusals.ServiceRefusals | crates/sigil-host/src/config_management.rs:595-625 | service start on consistent files fails with one code only |
| ConfigRefusals.UnloadableCopyRefusal | crates/sigil-host/src/config_management.rs:518-586 | a recovery whose stored copy reads but does not load puts it back and then fails |
| ConfigRefusals.StrayCopyRefusals | crates/sigil-host/src/config_management.rs:284-299 | a rollback to a copy that does not load stops behind it, and a recovery that ends on a document naming other paths lets `set` and service start go no further |
| ConfigSteps.StepKeepsInv | crates/sigil-host/src/config_management.rs:265-625 | every event of the system keeps lock exclusion, the crash invariant, the clocks, the daemon records, the proof of health and the reports |
| ConfigSteps.EvidenceProves | crates/sigil-host/src/config_management.rs:401-415 | a `commit` about to write its committing journal has a daemon in history that proves the candidate |
| ConfigSteps.SetReportHolds | crates/sigil-host/src/config_management.rs:295-343 | what a `set` reports is true of the files it leaves |
| ConfigSteps.CommitReportHolds | crates/sigil-host/src/config_management.rs:380-425 | what a `commit` reports is true of the files and the history it leaves |
| ConfigSteps.RollbackReportHolds | crates/sigil-host/src/config_management.rs:436-471 | what a `rollback` reports is true of the files and the history it leaves |
| ConfigSteps.RunKeepsInv | crates/sigil-host/src/config_management.rs:265-625 | the invariant holds at every instant of every run |
| ConfigOutcomes.CrashInvariant | crates/sigil-host/src/config_management.rs:265-588 | in every run, as long as nobody edits the live file while a transaction is open, live is base or candidate as the journal state allows at every instant, copies are intact, and recovery succeeds even after crashes inside it |
| ConfigOutcomes.EditedFilesStayRecoverable | crates/sigil-host/src/config_management.rs:506-588 | over runs with edits at any time between calls some live document, naming this directory, always restores agreement; a recovery that works here refuses exactly the documents it does not tolerate, and with any other the files agree and recovery is crash-proof |
| ConfigOutcomes.EditFailsClosed | crates/sigil-host/src/config_management.rs:529-580 | in a run a call that begins on a live document that names this directory but that recovery does not tolerate has no step to take and reports an error |
| ConfigOutcomes.LocksExclude | crates/sigil-host/src/appliance.rs:36-83 | no two live processes share the lifecycle lock, the transaction lock or a runtime directory's lock, and only one has durable steps left |
| ConfigOutcomes.CallsBeginAlone | crates/sigil-host/src/config_management.rs:627-660 | a call begins here only on a live document that names this directory, and with both its locks and the runtime directory's free |
| ConfigOutcomes.LocksAreKept | crates/sigil-host/src/appliance.rs:36-83 | every process keeps its locks until it is gone, but for the transaction lock, which a service start gives back when its daemon boots |
| ConfigOutcomes.ServingFreezesFiles | crates/sigil-host/src/config_management.rs:595-660 | while a daemon of this directory serves, journal and copies do not change, and the live file only by an outside edit or a call that works in another directory |
| ConfigOutcomes.HistoryGrows | crates/sigil-host/src/config_management.rs:265-588 | nothing begun, decided or finished is ever rewritten by later calls, crashes or outside edits |
| ConfigOutcomes.RecordIsTheInstantOfSet | crates/sigil-host/src/config_management.rs:313-325 | a transaction's base is the live document of the step that wrote its prepared journal |
| ConfigOutcomes.SetInRunSucceedsIff | crates/sigil-host/src/config_management.rs:300-343 | a `set` begun at any instant of a run succeeds if and only if nothing is undecided, the revision is the expected one, its edit loads and keeps the paths, and, when it changes anything, the status file it looks at is absent or names an instance of this host |
| ConfigOutcomes.OutcomeIsUniqueAndExact | crates/sigil-host/src/config_management.rs:417-419 | over runs with crashes and outside edits a transaction once decided keeps its decision for ever; finished, it left exactly the bytes before `set`, or exactly the candidate |
| ConfigOutcomes.ReportedOutcomeIsReal | crates/sigil-host/src/config_management.rs:420-471 | when success is reported the live file holds exactly those bytes and no journal is left |
| ConfigOutcomes.NeverReportedBothWays | crates/sigil-host/src/config_management.rs:346-472 | no run, with crashes and outside edits, reports one transaction both committed and rolled back |
| ConfigOutcomes.RecordedDaemonBooted | crates/sigil-host/src/appliance.rs:313-339 | a recorded daemon booted at its recorded step, with the configuration it loaded at service start |
| ConfigOutcomes.LoadedWasLive | crates/sigil-host/src/config_management.rs:595-660 | the configuration a daemon boots with was the live document when its service start began without a step to take, or took its last, under a lifecycle lock held ever since |
| ConfigOutcomes.ReadyWasMarked | crates/sigil-host/src/appliance.rs:401-405 | a daemon that serves as ready was marked ready at an earlier step |
| ConfigOutcomes.RecordedStopHappened | crates/sigil-host/src/appliance.rs:424-461 | a recorded clean stop was published at some step by a process serving as that instance |
| ConfigOutcomes.RecordsAreBlankBeforeStop | crates/sigil-host/src/appliance.rs:424-461 | before its clean stop the record of a daemon says neither ready nor failed |
| ConfigOutcomes.CommitProvesHealth | crates/sigil-host/src/config_management.rs:306-323 | over runs with crashes and outside edits, whenever a transaction is committing, or was ever reported committed, a daemon booted after its `set` with exactly the candidate in the bound directory, live when a daemon of this configuration loaded it, reached ready, and stopped cleanly without error |
| ConfigDirectories.StepsStayInDirectory | crates/sigil-host/src/config_management.rs:265-344 | steps of a call show in the directory it works in as they are, and in every other at most as an edit of the live file |
| ConfigDirectories.NothingThereYet | crates/sigil-host/src/config_management.rs:346-472 | in a directory that does not exist nothing is committed or rolled back, and service start runs the document |
| ConfigDirectories.RefusesIffUnaccepted | crates/sigil-host/src/config_management.rs:265-625 | for any number of directories, all four calls refuse without a step, and service start does, if and only if the directory that the live document names cannot accept it |
| ConfigDirectories.FailsClosedIffNamed | crates/sigil-host/src/config_management.rs:506-588 | with the only open transaction in one directory, unable to accept the live document, every call refuses if and only if the document names that directory; otherwise service start runs it |
| ConfigDirectories.EditEscapes | crates/sigil-host/src/config_management.rs:265-344 | an edit that names a directory without a transaction is run by service start and replaced by `set`, which opens a second transaction there and leaves the first untouched |
| ConfigDirectories.EscapeExists | crates/sigil-host/src/config_management.rs:265-344 | such an input with two directories and a pending transaction |
| ConfigRealms.EventSees | crates/sigil-host/src/config_management.rs:265-625 | every event over many directories is one event of each directory |
| ConfigRealms.EveryDirectoryTells | crates/sigil-host/src/config_management.rs:265-625 | seen from any directory, a run over all of them is a run of the single-directory system |
| ConfigRealms.KeepsOrder | crates/sigil-host/src/config_management.rs:265-625 | at every instant every call under way works in the directory that the live document then names |
| ConfigRealms.OneCallAtATime | crates/sigil-host/src/config_management.rs:627-660 | over all directories at most one process at a time is in the middle of a call |
| ConfigRealms.OnlyTheNamedShelfChanges | crates/sigil-host/src/config_management.rs:265-625 | a directory's transaction files change only by a step of a call that works there, while the live document names it |
| ConfigRealms.ServingFreezesItsShelf | crates/sigil-host/src/config_management.rs:595-660 | while a daemon serves a directory, no call anywhere changes its transaction files |
| ConfigRealms.RefusedExactlyWhenUnaccepted | crates/sigil-host/src/config_management.rs:265-625 | at every instant of every run over many directories the calls refuse without a step if and only if the named directory cannot accept the live document |
| ConfigProgress.CallCanFinish | crates/sigil-host/src/config_management.rs:265-660 | at every instant of every run any call under way can take its remaining steps and report as planned |
| ConfigProgress.ChangeCanBeInstalled | crates/sigil-host/src/config_management.rs:265-344 | whenever nothing runs and no transaction is open every acceptable change can be installed, and exactly what is then on disk |
| ConfigProgress.ChangeCanBeCommitted | crates/sigil-host/src/config_management.rs:265-426 | from there a daemon with any new instance can boot on the candidate, become ready and stop, and the change be committed: the candidate alone is left and both successes are reported |
| ConfigProgress.ChangeCanBeTakenBack | crates/sigil-host/src/config_management.rs:428-472 | or it can be rolled back: the text from before alone is left and both successes are reported |
| StatusPublisher.StepKeepsInv | crates/sigil-host/src/appliance.rs:352-515 | every atomic step of either task keeps the order of snapshots and the meaning of a stop |
| StatusPublisher.PersistedInOrder | crates/sigil-host/src/appliance.rs:352-515 | under every interleaving the snapshots on disk sample the stored states in order; a ready one carries the ready flag |
| StatusPublisher.MarkPublishesItsOwnState | crates/sigil-host/src/appliance.rs:401-422 | a mark that succeeds has put on disk the very state it stored |
| StatusPublisher.CleanStopIsFinal | crates/sigil-host/src/appliance.rs:424-461 | once a stop is on disk no step of either task is left; it tells whether ready was ever marked and which error was recorded |
| StatusPublisher.DegradedMayPrecedeItsError | crates/sigil-host/src/appliance.rs:412-422 | a run in which a beat between the two stores puts a degraded snapshot without an error on disk |
| StatusPublisher.FailedClockLosesItsError | crates/sigil-host/src/appliance.rs:412-422 | a run in which the clock fails a degrading call and a later beat persists a degraded snapshot while no error was ever recorded |
| StatusPublisher.ErrorIffRecorded | crates/sigil-host/src/appliance.rs:412-422 | an error is stored if and only if some earlier degrading call recorded one |
| StatusPublisher.SnapshotHasErrorIff | crates/sigil-host/src/appliance.rs:352-515 | whatever step persists a snapshot, it carries an error if and only if some degrading call recorded one before the writer's last read |
| StatusPublisher.DegradedReturnedThenError | crates/sigil-host/src/appliance.rs:412-422 | once a degrading call has recorded its error and returned success, every later snapshot from either task carries an error |
| StatusPublisher.DegradingCallWritesItsError | crates/sigil-host/src/appliance.rs:412-422 | what the degrading call itself writes always has the error |
| StatusPublisher.SnapshotIsExact | crates/sigil-host/src/appliance.rs:352-515 | every snapshot, told by the steps alone: the state stored last as of one instant, whether ready was marked as of a later one, the error recorded last as of a third |
| StatusPublisher.MarkShowsItsState | crates/sigil-host/src/appliance.rs:401-461 | a mark that succeeds shows the state of the mark called last and the error recorded last, a finish shows the stop |
| StatusPublisher.HistoryTells | crates/sigil-host/src/appliance.rs:401-422 | at every instant state, ready flag and error are those of the last mark, of any ready mark and of the last recorded error: a later error replaces an earlier one |
| StatusPublisher.FirstSnapshotIsTheStart | crates/sigil-host/src/appliance.rs:313-339 | the first snapshot on disk is a start, not ready and without error; nothing but a successful write adds one |
| StatusPublisher.LockIsKept | crates/sigil-host/src/appliance.rs:352-515 | beat and call never hold the lock together, and whoever began a snapshot ends it by its own write |
| StatusProgress.MarkCanBeShown | crates/sigil-host/src/appliance.rs:401-422 | at every instant of every run at which no call is under way every mark can be made and be the next snapshot on disk |
| StatusProgress.StopCanBeShown | crates/sigil-host/src/appliance.rs:424-461 | and the clean finish can go through, with the ready flag and the error as they were |
| BigEndian.ReadWrite | crates/sigil-protocol/src/invitation.rs:131-143 | a fixed-width integer reads back |
| BigEndian.WriteRead | crates/sigil-protocol/src/invitation.rs:196-259 | bytes are the encoding of the integer read from them |
| BigEndian.WriteBegins | crates/sigil-protocol/src/invitation.rs:131-143 | the most significant byte comes first |
| Invitation.FillClaims | crates/sigil-protocol/src/invitation.rs:131-143 | the zeroed buffer filled at fixed offsets is the concatenation of the nine fields |
| Invitation.PutField | crates/sigil-protocol/src/invitation.rs:131-143 | one field written at its offset extends the encoded prefix by exactly that field |
| Buffers.CopyInto | crates/sigil-protocol/src/invitation.rs:131-143 | a copy replaces exactly its stretch of the buffer |
| Invitation.ClaimsRoundTrip | crates/sigil-protocol/src/invitation.rs:131-259 | claims read back from their encoding |
| Invitation.EncodedFields | crates/sigil-protocol/src/invitation.rs:131-143 | each of the nine fields stands at its own fixed offset |
| Invitation.SigningMessageParts | crates/sigil-protocol/src/invitation.rs:145-150 | what is signed is the 27 bytes of the domain and then the 127 from which the claims read back |
| Invitation.SigningMessageIsInjective | crates/sigil-protocol/src/invitation.rs:145-150 | two claims are signed as the same message if and only if they are the same |
| Invitation.AlteredClaimsAreRefused | crates/sigil-protocol/src/invitation.rs:173-187 | a signature that is good for one message admits no other claims of that host, as invitation or as token |
| Invitation.BytesRoundTrip | crates/sigil-protocol/src/invitation.rs:196-259 | bytes with the right header re-encode from the claims read from them |
| Invitation.IssuedDecodes | crates/sigil-protocol/src/invitation.rs:160-259 | whatever is issued and encoded decodes to itself |
| Invitation.AcceptedIsCanonical | crates/sigil-protocol/src/invitation.rs:173-259 | an accepted token re-encodes to itself, its claims are valid and its host's key accepts its signature; no other token decodes to the same invitation |
| AuthorizationRefusals.TokensAreRefusedFor | crates/sigil-protocol/src/invitation.rs:196-259 | every token is refused for its first flaw, byte by byte, and accepted if and only if it has none and is the canonical text of its bytes |
| AuthorizationRefusals.BytesAreRefusedFor | crates/sigil-protocol/src/invitation.rs:202-259 | the 191 bytes are refused for length, magic, version, claims and signature in that order, and accepted otherwise |
| AuthorizationRefusals.ClaimsAreRefusedFor | crates/sigil-protocol/src/invitation.rs:94-129 | claims are refused for grants, lifetime, epoch, nonce and the two keys in that order, and valid otherwise |
| AuthorizationRefusals.SigningIsRefusedFor | crates/sigil-protocol/src/invitation.rs:160-171 | sound claims are signed by exactly the key of the host they name |
| AuthorizationStore.ValidateState | crates/sigil-host/src/authorization.rs:279-365 | the checks, loop by loop, accept exactly the states with distinct peers, handles and nonces, bounded parts and ordered, in-range revisions |
| AuthorizationStore.ValidateEnrollments | crates/sigil-host/src/authorization.rs:310-334 | the loop over the sets it fills finds every duplicate peer or handle and every bad entry |
| AuthorizationStore.ValidateLedger | crates/sigil-host/src/authorization.rs:335-347 | the nested loop finds every zero and every repeated nonce |
| AuthorizationStore.ValidateAudit | crates/sigil-host/src/authorization.rs:348-364 | the loop accepts exactly ordered logs of well-formed entries |
| AuthorizationStore.RandomHandle | crates/sigil-host/src/authorization.rs:404-414 | the first of at most sixteen draws that no viewer has |
| AuthorizationStore.Store.WriteState | crates/sigil-host/src/authorization.rs:1053-1087 | only a valid state reaches the disk, the bound on its text never refuses one, and only a completed write is reported |
| AuthorizationStore.Store.Open | crates/sigil-host/src/authorization.rs:417-439 | the version 2 document if there is one, else the converted version 1 document, written before the old one is removed, each of the two ending in one of three ways |
| AuthorizationOpening.StoredOpensIff | crates/sigil-host/src/authorization.rs:279-365 | opening a stored document succeeds if and only if every part of it is in order, told literally; memory is then that document and both documents stay |
| AuthorizationOpening.FirstOpensIff | crates/sigil-host/src/authorization.rs:417-439 | with nothing stored it starts an empty epoch 1 at revision 1; with a version 1 document it succeeds if and only if that converts and both the write and the removal are reported done, and exactly what is then on disk |
| AuthorizationOpening.ConvertsIff | crates/sigil-host/src/authorization.rs:228-277 | a version 1 document converts if and only if version, host, epoch, ledger and grants are in order |
| AuthorizationStore.Store.AuthorizeOrRedeem | crates/sigil-host/src/authorization.rs:503-616 | memory, disk and answer are what the operation and the fate of its write make them |
| AuthorizationStore.Store.RevokeWithOutcome | crates/sigil-host/src/authorization.rs:745-775 | memory, disk and answer after a reset are what the operation and the fate of its write make them, one audit entry pushed for each viewer removed |
| AuthorizationStore.Store.RevokeViewer | crates/sigil-host/src/authorization.rs:783-815 | memory, disk and answer after revoking one viewer are what the operation and the fate of its write make them |
| AuthorizationStore.Store.ReplaceViewerGrants | crates/sigil-host/src/authorization.rs:817-875 | memory, disk and answer after replacing or withdrawing grants are what the operation and the fate of its write make them |
| AuthorizationLaws.PruneMembers | crates/sigil-host/src/authorization.rs:367-376 | pruning keeps exactly the entries not yet sixty seconds past expiry, and shortens the ledger only if it drops one |
| AuthorizationText.ValidStateFits | crates/sigil-host/src/authorization.rs:1053-1070 | the indented JSON text of every valid state fits 64 KiB with its final newline, so the bound refuses neither a write nor the next opening |
| AuthorizationReading.TextTellsTheState | crates/sigil-host/src/authorization.rs:1053-1070 | the text of a valid state tells the whole state: no two valid states are written alike, not even as the beginning of a longer text |
| AuthorizationLaws.PerformKeepsValid | crates/sigil-host/src/authorization.rs:279-365 | whatever an operation would write passes the writer's own validation |
| AuthorizationLaws.PerformKeepsSourced | crates/sigil-host/src/authorization.rs:384-389 | folding the history with the logged entries gives the new handle-to-grants map, revisions and audit ring |
| AuthorizationLaws.PerformKeepsSpent | crates/sigil-host/src/authorization.rs:367-376 | no operation forgets a spent invitation before the clock makes it unredeemable |
| AuthorizationLaws.SpentIsRefused | crates/sigil-host/src/authorization.rs:541-577 | a spent invitation is refused at every reading at most sixty seconds below the greatest |
| AuthorizationLaws.LargerRegressionReplays | crates/sigil-host/src/authorization.rs:367-376 | with one second more of regression a token redeemed at its expiry can be redeemed again |
| AuthorizationLaws.IssuedTokenAdmitsIff | crates/sigil-host/src/authorization.rs:441-616 | exactly when an issued, encoded and decoded token admits its peer, and what it then yields |
| AuthorizationLaws.EnrolledReconnects | crates/sigil-host/src/authorization.rs:513-530 | an enrolled peer reconnects without a ticket under its own handle and grants |
| AuthorizationLaws.UntouchedStaysEnrolled | crates/sigil-host/src/authorization.rs:745-875 | an enrolment stays as it is under every operation that does not name it or reset all |
| AuthorizationEffects.RevokeViewerIff | crates/sigil-host/src/authorization.rs:783-815 | revoking succeeds if and only if somebody has the handle; then exactly the others remain, the revoked peer is no longer enrolled, and one entry logs it with the grants it had |
| AuthorizationEffects.ReplaceGrantsIff | crates/sigil-host/src/authorization.rs:817-875 | replacing succeeds if and only if the handle exists and the grants allow view and differ; then that viewer alone changes, under the newest revision of all, and one entry logs both grants |
| AuthorizationEffects.RevokeAllIff | crates/sigil-host/src/authorization.rs:745-775 | a reset succeeds if and only if epoch and revision can grow; then nobody is enrolled, the epoch is one higher, and one entry logs each viewer removed |
| AuthorizationEffects.WithdrawingIsRevoking | crates/sigil-host/src/authorization.rs:817-875 | replacing grants with none is revoking the viewer, in every respect |
| AuthorizationEffects.RedemptionLeaves | crates/sigil-host/src/authorization.rs:541-599 | exactly what a redemption stores, logs and answers, both revisions of the answer included |
| AuthorizationEffects.ReconnectLeaves | crates/sigil-host/src/authorization.rs:513-530 | a reconnect changes nothing but the lapsed nonces and logs nothing |
| AuthorizationEffects.UnusedHandleIsFirst | crates/sigil-host/src/authorization.rs:404-414 | the handle is the first drawn that nobody has, and there is none if and only if all of the first sixteen are taken |
| AuthorizationEffects.IssuesIff | crates/sigil-host/src/authorization.rs:441-501 | exactly when an invitation can be made out, and that it says what was asked |
| AuthorizationRefusals.RedemptionIsRefusedFor | crates/sigil-host/src/authorization.rs:503-616 | a refused redemption names the first objection of fifteen |
| AuthorizationRefusals.ReconnectIsRefusedFor | crates/sigil-host/src/authorization.rs:513-530 | a reconnect is refused if and only if the state is invalid or the peer not enrolled, and says which |
| AuthorizationRefusals.ReplacementIsRefusedFor | crates/sigil-host/src/authorization.rs:783-875 | a refused replacement or revocation names its first objection |
| AuthorizationRefusals.ResetIsRefusedFor | crates/sigil-host/src/authorization.rs:745-775 | a refused reset names its first objection |
| AuthorizationRefusals.IssueIsRefusedFor | crates/sigil-host/src/authorization.rs:441-501 | a refused invitation names its first objection |
| AuthorizationEffects.RedeemedIsEntitled | crates/sigil-host/src/authorization.rs:541-577 | whoever redeems holds a token whose signature this host's key accepts, for that peer, in the present epoch, inside its window and unknown to the ledger |
| AuthorizationEffects.EpochNeverFalls | crates/sigil-host/src/authorization.rs:503-875 | no operation lowers the epoch |
| AuthorizationRuns.ResetIsForGood | crates/sigil-host/src/authorization.rs:745-775 | after a reset that reports success no invitation of the old epoch is ever redeemed, whatever fails or crashes later |
| AuthorizationRuns.ReconnectsUntilChanged | crates/sigil-host/src/authorization.rs:503-616 | from a successful redemption until somebody changes that viewer or resets, over failures and crashes, the settled answer to a ticketless reconnect is the same handle and grants, unless expired nonces must be pruned and that write fails |
| AuthorizationRuns.CallsAreTheStores | crates/sigil-host/src/authorization.rs:503-875 | the calls of a run leave the memory and disk that the store's methods leave |
| AuthorizationRuns.StepKeepsInv | crates/sigil-host/src/authorization.rs:417-875 | calls with any fate, crashes and openings keep validity, the audit source and the memory of every redemption |
| AuthorizationRuns.RedeemedAtMostOnce | crates/sigil-host/src/authorization.rs:503-616 | over every run whose clock never falls more than sixty seconds below a reading, no invitation is redeemed twice |
| AuthorizationRuns.InvitedCanJoin | crates/sigil-host/src/authorization.rs:441-616 | at every instant of every run at which the store is open, whoever an invitation can be made out to can redeem it there and then while the ledger has room, and is then enrolled in memory and on disk |
| AuthorizationRuns.AuditIsTheSource | crates/sigil-host/src/authorization.rs:384-389 | at every instant memory and disk are valid, equal the fold of their audit history, have distinct revisions and keep its last sixty-four entries |
| AuthorizationRuns.SuccessAgreesIff | crates/sigil-host/src/authorization.rs:600-616 | after a reported success memory and disk agree if and only if it wrote or they agreed before |
| AuthorizationRuns.RenamedWriteParts | crates/sigil-host/src/authorization.rs:1053-1087 | a write renamed into place but reported as failed parts them |
| AuthorizationRuns.SuccessCanDiffer | crates/sigil-host/src/authorization.rs:503-616 | a run in which a reset renamed but reported as failed is followed by a successful ticketless reconnect, with a viewer in memory and none on disk |
| AuthorizationRuns.OpeningAgrees | crates/sigil-host/src/authorization.rs:417-439 | whenever memory is there after an opening it is what is on disk, and an existing document is left as it is |
| AuthorizationRuns.OpeningRestores | crates/sigil-host/src/authorization.rs:983-1029 | in every run, whatever crashed before, an opening with a document on disk succeeds and memory is that document |
| AuthorizationRuns.MigrationLosesNothing | crates/sigil-host/src/authorization.rs:228-277 | however often migration is cut short, the version 1 document stays until a version 2 document with its epoch, peer, grants and ledger is on disk |
| AuthorizationRuns.V2IsForGood | crates/sigil-host/src/authorization.rs:983-1029 | a version 2 document stays, and a version 1 document beside it is never consulted |
| ManagedSettings.BuildCandidate | crates/sigil-host/src/config_management.rs:704-775 | the step-by-step edit of the document is the specified edit, refused as specified |
| ManagedSettings.EditCommutesWithDecode | crates/sigil-host/src/config_management.rs:704-775 | editing the document and then decoding it is decoding it and then replacing the managed fields |
| ManagedSettings.CandidateIff | crates/sigil-host/src/config.rs:496-566 | exactly which settings a valid configuration accepts, and that every other field is kept |
| ManagedSettings.LoadsIff | crates/sigil-host/src/config.rs:485-566 | a document loads as a configuration if and only if it says it, entry by entry: keywords, ranges and defaults written out |
| ManagedSettings.ManagedEntriesAre | crates/sigil-host/src/config_management.rs:704-775 | exactly what the candidate's document holds under the managed keys |
| ManagedSettings.UpdatedIsValidIff | crates/sigil-host/src/config.rs:248-354 | the replaced fields are valid if and only if rate, size and frame rate are in range and the backend can run the mode |
| ManagedSettings.UnmanagedEntriesKept | crates/sigil-host/src/config_management.rs:713-757 | entries of the document outside the six managed ones are the same afterwards |
| ManagedSettings.ValidProjects | crates/sigil-host/src/config_management.rs:777-808 | projecting a valid configuration never meets a missing value and loses nothing the settings can restore |
| ManagedSettings.PutGet | crates/sigil-host/src/config_management.rs:704-808 | a candidate projects to exactly the settings asked for |
| ManagedSettings.GetPut | crates/sigil-host/src/config_management.rs:704-808 | a configuration's own settings leave it unchanged, refused only for an inline table or a text grown past the bound |
| ManagedSettings.PutPut | crates/sigil-host/src/config_management.rs:704-808 | a second put overrides the first |
| ManagedTransaction.CandidatesAgree | crates/sigil-host/src/config_management.rs:704-775 | the candidate bytes of the transaction are exactly the text of the settings' candidate document, and one exists if and only if the other does |
| ManagedTransaction.SetInstallsSettings | crates/sigil-host/src/config_management.rs:265-344 | `set` of settings succeeds if and only if nothing is undecided, the revision is the expected one and the live configuration accepts them; then the live text reads as the old configuration with the managed fields replaced, projects to the settings, and the text from before is the rollback copy |
| PolicyParser.Parser.constructor | scripts/verify_ci_cross_build_policy.py:189-190 | the parser works on the lines of its text |
| PolicyParser.Parser.Parse | scripts/verify_ci_cross_build_policy.py:192-199 | the whole parse is the specified function of the lines |
| PolicyParser.Parser.NextContent | scripts/verify_ci_cross_build_policy.py:201-204 | the loop stops at the next content line |
| PolicyParser.Parser.Block | scripts/verify_ci_cross_build_policy.py:206-212 | terminates, and equals its specification on the lines from its index |
| PolicyParser.Parser.SequenceAt | scripts/verify_ci_cross_build_policy.py:214-230 | the loop over items equals its specification on the lines from its index |
| PolicyParser.Parser.MappingFrom | scripts/verify_ci_cross_build_policy.py:232-258 | the loop over fields, first field given or not, equals its specification |
| PolicyParser.Parser.EntryAt | scripts/verify_ci_cross_build_policy.py:260-276 | one field and its value equal their specification |
| PolicyParser.Parser.BlockScalar | scripts/verify_ci_cross_build_policy.py:278-298 | the loop over the lines of a block scalar equals its specification |
| PolicyPrinter.ParseInvertsPrint | scripts/verify_ci_cross_build_policy.py:181-298 | for every tree of nested mappings, block and flow sequences, nulls, bare, quoted and block scalars, and every layout of it (any remark behind any scalar of a field or item, block scalars literal or folded and at any depth), parsing its printed text gives the tree back |
| PolicyPrinter.LinesReparse | scripts/verify_ci_cross_build_policy.py:192-276 | for every printable tree in every layout, parsing its printed lines gives the tree back |
| PolicyPrinter.FieldTextReads | scripts/verify_ci_cross_build_policy.py:260-267 | a spelled key and the stripped value read back from the text of a field |
| PolicyPrinter.ScalarSpellingReads | scripts/verify_ci_cross_build_policy.py:161-171 | a bare or quoted scalar reads back, with or without a remark behind it, and is taken for nothing else |
| PolicyPrinter.FlowReparses | scripts/verify_ci_cross_build_policy.py:174-178 | scalars between brackets, colons and quotes included, read back as the same list |
| PolicyPrinter.LiteralReparses | scripts/verify_ci_cross_build_policy.py:278-298 | text of many lines, indented by any amount below its key, literal or folded, reads back exactly, with or without its last newline |
| PolicyPrinter.RemarkBesideKeyIsValue | scripts/verify_ci_cross_build_policy.py:260-275 | beside a key with nothing else on its line a remark is read as the value |
| PolicyPrinter.RemarkBehindOpenerEndsIt | scripts/verify_ci_cross_build_policy.py:260-275 | behind the mark of a block scalar a remark makes the mark itself the value |
| PolicyScalars.ScalarBeforeRemark | scripts/verify_ci_cross_build_policy.py:161-171 | text that opens with no quote and holds no remark reads as it stands, with any whitespace, hash and text behind it |
| PolicyScalars.QuotedBeforeRemark | scripts/verify_ci_cross_build_policy.py:161-171 | a quoted scalar reads as the text between its quotes, whatever stands behind |
| PolicyScalars.BareScalar | scripts/verify_ci_cross_build_policy.py:161-171 | any value whose first quote never closes is cut at its first remark, a hash with whitespace before it, and nowhere else |
| PolicyScalars.QuotedScalar | scripts/verify_ci_cross_build_policy.py:161-171 | any value whose first quote closes is what stands between the two |
| PolicyScalars.FieldIff | scripts/verify_ci_cross_build_policy.py:260-268 | a line is a field if and only if its key ends at a colon that nothing or whitespace follows; which key and which value |
| PolicyScalars.StripIs | scripts/verify_ci_cross_build_policy.py:161-171 | stripping takes the whitespace at both ends and nothing else |
| PolicyRejections.RejectionIsTrue | scripts/verify_ci_cross_build_policy.py:192-276 | every error is true of the document it is raised for: the line it names is there and as the error says |
| PolicyText.SplitInvertsText | scripts/verify_ci_cross_build_policy.py:189-190 | lines joined by newlines split into themselves |
| PolicyText.SplitInvertsEnded | scripts/verify_ci_cross_build_policy.py:189-190 | lines with any mix of line ends, the last with or without one, split into themselves |
| PolicyConservation.AcceptedIsAccountedFor | scripts/verify_ci_cross_build_policy.py:192-298 | the keys, items and scalars of an accepted tree, in order, are those of the lines, in order, each at the column that its depth in the tree asks for: nothing is dropped, repeated, invented or accepted out of place |
| PolicyConservation.AcceptedIsUnambiguous | scripts/verify_ci_cross_build_policy.py:237-240 | an accepted document is a mapping without a duplicate key at any depth |
| PolicyNoise.NoiseChangesNothing | scripts/verify_ci_cross_build_policy.py:201-298 | a settled document, in which no comment ends a block scalar before deeper content, gives the same tree or error without the blank and comment lines outside block scalars |
| PolicyNoise.AcceptedIsSettled | scripts/verify_ci_cross_build_policy.py:201-298 | every accepted document is settled, so it parses to the same tree without its blank and comment lines outside block scalars |
| PolicyNoise.UnsettledIsRejected | scripts/verify_ci_cross_build_policy.py:201-298 | every document in which a comment ends a block scalar before deeper content is rejected |
| PolicyNoise.ReadsSameIffSettled | scripts/verify_ci_cross_build_policy.py:201-298 | a document accepted without its noise reads the same with it if and only if it is settled |
| PolicyNoise.AcceptedIffSettledAndClean | scripts/verify_ci_cross_build_policy.py:201-298 | every document is accepted if and only if it is settled and accepted without its noise, and then with the same tree |
| PolicyNoise.RemarkMatters | scripts/verify_ci_cross_build_policy.py:278-298 | any comment indented less than the text of a block scalar ends it: the document is rejected with it and accepted without it |
| PolicyNoise.CommentCanMatter | scripts/verify_ci_cross_build_policy.py:278-298 | one such document, in four lines |
| PolicyNoise.InsertionChangesNothing | scripts/verify_ci_cross_build_policy.py:201-298 | in any document at all, accepted or rejected, inserting a blank line outside block scalar text, or a comment where no block scalar takes it, changes neither tree nor error |
| PolicyNoise.TrimmedReadsSame | scripts/verify_ci_cross_build_policy.py:278-298 | trailing blank lines never show in a block scalar |
| RtpPacket.ParseInvertsEncode | crates/sigil-host/src/audio.rs:283-350 | any sources, extension, payload and padding: the built datagram gives back sequence, timestamp and payload |
| RtpPacket.EncodeInvertsParse | crates/sigil-host/src/audio.rs:283-350 | every accepted datagram is byte for byte the encoding of its parts |
| RtpPacket.AcceptedIffEncoded | crates/sigil-host/src/audio.rs:283-350 | the parser accepts exactly the encodings of well-formed datagrams of the stream |
| RtpPacket.RejectionIsTheFlaw | crates/sigil-host/src/audio.rs:283-350 | a datagram is rejected if and only if something is wrong with it, and for the first of eleven things that is, byte by byte |
| RtpClock.AnchoredIsIdealIff | crates/sigil-host/src/clock.rs:34-44 | the saturating 64-bit clock equals the exact one if and only if the samples are at most the bound or both clocks are at their maximum |
| RtpClock.Clock.PtsUs | crates/sigil-host/src/audio.rs:359-379 | the fields step as specified and a rejected timestamp changes none of them |
| RtpClock.NeverRunsBackwards | crates/sigil-host/src/audio.rs:359-379 | over any inputs, wrapped or rejected, times never run backwards |
| RtpClock.RefinesUnboundedClock | crates/sigil-host/src/audio.rs:359-379 | positions stepping by at most ten seconds, fed modulo 2^32, are all accepted and answered with the exact floor of the total, if and only if the total stays within the bound or both clocks are at their maximum |
| RtpClock.AcceptedIffSteady | crates/sigil-host/src/audio.rs:359-379 | a run is accepted if and only if it is the remainders of such positions |
| AudioReceiver.ReceiveRtp | crates/sigil-host/src/audio.rs:183-214 | the loop sends exactly the delivered packets of its history and ends as the history ends |
| AudioReceiver.HistoryIsExact | crates/sigil-host/src/audio.rs:183-214 | every arrival's sequence counts the arrivals before it and its mark says exactly whether the one before was dropped or not its predecessor |
| AudioReceiver.MarksAndGapsAreExact | crates/sigil-host/src/audio.rs:183-214 | of two consecutive delivered packets the second is unmarked if and only if nothing was dropped between and it is the RTP successor; the gap counts the drops if and only if the counter has not saturated |
| AudioReceiver.FirstMarkIsExact | crates/sigil-host/src/audio.rs:183-214 | the first delivered packet is marked if and only if something was dropped before it |
| AudioReceiver.FatesCarryArrivals | crates/sigil-host/src/audio.rs:183-214 | each packet carries its own arrival's payload and observation and the clock's answer for it, and is delivered if and only if the queue took it |
| AudioReceiver.SentIsWhatTheQueueTook | crates/sigil-host/src/audio.rs:183-214 | the packets sent are, in order, those of the arrivals whose offer the queue took; all others before the end found it full |
| AudioReceiver.MarksFollowTheQueue | crates/sigil-host/src/audio.rs:183-214 | the mark laws in terms of the queue's answers: unmarked if and only if the queue refused nothing between and the numbers follow |
| AudioReceiver.HeardIsCut | crates/sigil-host/src/audio.rs:179-194 | of a datagram longer than the buffer the first 2048 bytes are heard |
| AudioReceiver.EndsAtFirstOffence | crates/sigil-host/src/audio.rs:183-214 | the loop ends at the first arrival that is foreign, malformed, out of the clock window or refused by a closed queue, for that reason |
| AudioReceiver.DeliveredInTimeOrder | crates/sigil-host/src/audio.rs:183-214 | presentation times do not decrease along what is delivered |
| AnnexB.NextCode | portal/codecs.js:15-19 | the first start code at or after a position, or the end, with none before it |
| AnnexB.ParseAnnexBNals | portal/codecs.js:5-24 | the nested scan returns the units of the specification |
| AnnexB.ParseInvertsStream | portal/codecs.js:5-24 | any mix of three- and four-byte start codes before well-formed units parses back to exactly those units |
| AnnexB.ParseLosesNothing | portal/codecs.js:5-24 | for any bytes at all, the first start code onwards is exactly the stream of the units found, of which only the last can be empty |
| AnnexB.NalsToLengthPrefixed | portal/codecs.js:26-37 | the buffer filled at a moving offset is each length and unit in turn |
| AnnexB.ReadBackInvertsIff | portal/codecs.js:26-37 | the four-byte lengths read the units back if and only if each fits 32 bits |
| AnnexB.StreamSurvivesConversion | portal/codecs.js:5-37 | a stream of well-formed units, parsed and length-prefixed, reads back as those units |
| PointerMapping.RegionIsTheAspectFit | crates/sigil-host/src/cursor.rs:652-704 | the region fills one axis, takes the floor of the exact scaling on the other, is centred to within a pixel and inside the surface; the only failure is an unrepresentable aspect |
| PointerMapping.MapsIff | crates/sigil-host/src/cursor.rs:706-749 | mapping succeeds exactly for in-root points of a representable aspect, inside the region, at the floor of the exact scaling |
| PointerMapping.RefusalsAre | crates/sigil-host/src/cursor.rs:652-749 | what every refusal says: surface, root, aspect, then each axis in turn; the overflow and range checks never answer |
| PointerMapping.MapsInOrder | crates/sigil-host/src/cursor.rs:706-749 | on each axis by itself the mapping keeps order, strictly when enlarging, and is the identity between equal sizes |

## Left out

- An edit of the live configuration between the two loads a call makes before recovery: the program's check that the paths did not change there always passes. The same check after recovery is part of the model.
- A live configuration file that is missing counts as one that does not parse; a call that finds one that does not load, or a state directory it cannot lock, is refused without a trace and is not an event of a run. Loading the host identity never fails.
- JSON and TOML parsing: documents are keys and values, journals and states are records. The text of an edited configuration is what a lawful codec renders (it reads back as the document written), its size a function of that document; the text of a state is rendered in full.
- The schema outside the managed settings (device, audio and path fields of `config.rs`): whether those entries decode and validate is a parameter.
- Outside edits of the live configuration between two durable steps of one call, or between its last step and its answer, and outside edits of the copies or the journal at any time: an edit in a run falls between calls, or between service start and the daemon's first status.
- `show` and `validate`, which change nothing.
- File permissions, owners, symbolic links, `flock`, `fsync` and power-loss ordering: atomic replace, atomic remove and try-lock remain.
- A call refused because a lock is busy leaves no trace and is not an event.
- The session and generation fields of the runtime status, its earlier schema versions, and a foreground status call abandoned halfway.
- The publisher inside whole configuration runs is one step per snapshot; its finer interleaving is StatusPublisher.
- The authorization state is a value: the candidate is a local, memory and disk are fields; busy mutexes and writer leases are not modelled.
- Invitation.AcceptedIsCanonical: does not say that one set of claims has one token, because a signer may sign the same claims twice with different signatures and the code accepts both.
- Invalid text forms of peer identifiers.
- Python's recursion limit, which a deep enough workflow would meet before the parser's own errors.
- The checks the policy script makes on the parsed tree.
- Sequences directly inside sequences, and nulls as items: the grammar has no spelling for them, so the printer takes none.
- Sockets, the child process and its logging around the receive loop; the AVC decoder description beside the length-prefixed units.
- Fixed-width media and feedback records, X11, GStreamer, sessions, focus, the portal and the packaging scripts.
