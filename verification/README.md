# Verified model of frametime.cfg

frametime.cfg tunes a Windows machine for Counter-Strike 2 in three phases that
span two reboots. It changes settings through an engine that first makes
recovery records durable, keeps its progress in files, resumes after failures,
and can restore every setting it changed. This project models that program and
proves what it is for:

* **Recovery engine and backups** (`ProgressRecord`, `Engine`, `EngineModel`, `EngineRuns`,
  `Protocol`, `Recipes`, `EventLog`, `Schedule`, `WriteAhead`, `Undo`, `Backup`,
  `Restore`, `AuditFile`, `LiveSteps`, `LiveTransaction`, `LiveTable`, `LiveRuns`).
  A backend may fail at any call. The engine refines a protocol that reads its
  next call off the calls made and their answers; a step is completed only after
  the whole recipe of its class, its verification included. Every mutation stands
  right after its own durable recovery record; an error stops a run at a step boundary with memory and disk agreeing;
  runs compose and re-runs are silent; and after any number of sessions that
  fail, crash and retry, with failing restores between them that keep the oldest
  values, one clean restore gives back the machine. On the live backend every
  visit starts without an open transaction, and no mutation of a run rests on
  an older capture than the lock it holds.
* **Reboot-spanning phases** (`Orchestration`, `OrchestrationProofs`,
  `Lifecycle`, `LifecycleProofs`, `LifecycleCommands`, `LifecycleResume`, `LifecycleProgram`, `LifecycleWitness`).
  Authorization fails closed and is exclusive. Over every run of commands,
  reboots, crashes, resets and outside changes, driver removal starts only in
  Safe Mode after the Safe Boot flag is gone, Phase 3 needs all of Phase 2, the
  final handoff is cleared only with coherent benchmark files, and the stage
  only moves forward. After a crash anywhere the workflow can resume exactly on
  stated conditions.
* **Multi-file bundles** (`Benchmark`, `BenchmarkConditions`, `BenchmarkProofs`,
  `BenchmarkStore`; `CfgTargets`,
  `CfgFiles`, `Cs2Config`, `CfgBackup`, `CfgProofs`, `Autoexec`). Torn benchmark
  bundles converge to the first written receipt; CFG capture, any prefix of an
  apply, and restore give back the original files; an apply establishes what
  verify checks.
* **Parsers** (`SteamVdf`, `VdfProofs`, `Smbios`, `SmbiosProofs`). The VDF parser
  accepts exactly the printed trees and returns their meaning. The SMBIOS walk
  succeeds exactly on the tables its structures tile, and a usable topology
  partitions exactly the populated memory devices.
* **Driver evidence** (`Calendar`, `DriverPlan`, `DriverRemoval`). Timestamps
  compare as strings exactly as their second counts do, the plan ignores package
  order, and removal calls each captured package once, in order, on fresh Safe
  Mode evidence.

Code that works step by step is a class or method with loops, proved equal to a
function of its inputs; the properties are then lemmas about that function over
all inputs and all runs.

## What the proofs found

* From a fresh machine, Safe Mode is armed in some run exactly if the custom
  profile is used: under every other profile P1:3, P1:4 and P1:6 end as advice
  that the Safe Mode guard does not accept, and the inspection of P1:16 fails
  (`LiveRuns.PhaseOneNeedsCustom`, `LifecycleProgram.ArmingNeedsCustom`).
* No run gets past Phase 2, since the live inspection of P2:2 always fails;
  P1:16, P3:1 and P3:4 are never applied or completed either
  (`LiveRuns.UnavailableStepsNeverRun`, `LifecycleProgram.PhaseThreeNeedsDrivers`).
  The guards themselves would admit the rest: the whole schedule is reachable
  exactly if the driver steps could go on (`LifecycleWitness.StagesAreReachableIff`,
  `LifecycleWitness.WholeScheduleIsReachable`). The results on Phase 3 and on the
  final benchmark below are about that part.
* A crash between the state write and the progress write of P1:38, P2:1 or P2:3,
  and at no other point, leaves a torn handoff (`LifecycleResume.CrashTearsIff`).
  The program can tear those of P1:38 and P2:1, and P2:3 only if the driver steps
  could go on (`LifecycleWitness.TornHandoffsAreReachableIff`). A torn handoff
  never resumes, whatever follows (`LifecycleWitness.TornForever`), and every
  other idle state does after some outside change and reboot
  (`LifecycleResume.ResumesIff`). The branch of the Safe Mode handoff that
  accepts an existing transaction is therefore never reached.
* By reboots alone the workflow resumes exactly if Safe Boot, the handoff values
  and the runtime are still as its stage needs
  (`LifecycleResume.ResumesByRebootsIff`). A crash between the removal of the Safe
  Boot flag and the P2:1 state write fails this: nothing starts until somebody
  sets the flag again (`LifecycleWitness.LostSafeBootIsReachable`).
* Of the 54 scheduled steps a live run can change something with four only: P1:8,
  P1:12, P1:30 and P1:34, and with P1:12 alone under the safe profile. P3:2 and
  P3:3 can be found in need of a change, but they are check-only and go straight
  to their verification (`Schedule.OnlyTheseMutate`).
* With both files read, as they always are, the migration check never answers that
  it is not needed: `optimize` goes on only with its confirmation flag
  (`OrchestrationProofs.OptimizeNeedsYes`).
* A partial restore that writes the file loses an original value exactly if it
  releases the oldest entry of a resource and keeps a younger one with another
  value (`Restore.RoundConvergesIff`). Any number of failing restores is harmless,
  whatever fails, exactly when entries that share a resource agree
  (`Restore.RetriedRestoresConvergeIff`).
* The history record of the final benchmark does not hold the frame cap. While
  only the history is written, a retry under another configuration completes the
  bundle with another cap; once the state file holds a receipt it is refused
  (`BenchmarkProofs.RetriesSettle`, `BenchmarkProofs.RetriesAnswer`).
* The gate in front of a native mutation asks for a capture, not for a stored
  one. That alone would lose originals (`Undo.ApplyKeepsUndoIff`); the order of
  the engine's calls is what makes every session undoable
  (`Undo.AppliesAreStored`, `Undo.RetriedSessionsAreUndone`).
* Over arbitrary call sequences a mutation of the live backend can rest on a
  capture older than its lock, exactly when the failure of another step gave
  the lock up in between (`LiveTransaction.StaleIff`,
  `LiveTransaction.StaleIsPossible`). No engine run ever gets there
  (`LiveRuns.MutationsAreFresh`).
* A visit that finds P1:30 or P1:34 as wanted, or P1:8 before this process has
  captured the page file, always ends in a verification error: the verification
  wants the binding that only a capture makes, and a satisfied step is not
  captured. Every other step found satisfied fails exactly if its verification
  looks at the machine and does not succeed (`LiveRuns.SatisfiedFailsIff`). On a
  machine where everything works all three fail (`LiveRuns.SatisfiedVisitsFail`);
  for P1:8 an automatically managed page file is enough. For P1:34 being as
  wanted includes the minute in the header of optimization.cfg, so a run in a
  later minute finds it in need of applying and can complete it.
* Restoring a P1:34 transaction leaves the sidecar files the apply created, so
  the undo is exact if and only if it created none (`CfgProofs.ApplyUndo`,
  `CfgProofs.CreatesChangeNothingIff`). A second apply of the same request, the
  minute in its header included, changes no file if and only if
  optimization.cfg or its sidecar existed before the first
  (`CfgProofs.ReapplyChangesNothingIff`).
* The autoexec bootstrap keeps the old lines except that a last line ending in a
  bare carriage return loses it (`Autoexec.EnsuredKeepsLines`).
* The trailing-token error of the VDF parser cannot occur
  (`SteamVdf.OutermostTakesAll`).

## Model

| member | source | states |
|---|---|---|
| `Backup.BackupFile.PushFirstValue` | crates/frametime-domain/src/backup.rs:369-379 | an entry is appended unless an older one of its step and kind is about the same setting; nothing else changes |
| `Backup.PushDropsIff` | crates/frametime-domain/src/backup.rs:369-463 | a push drops its entry if and only if an older one of the same step and kind is about the same setting: the only one of its kind (HAGS, page file), or one with the same subject up to ASCII case; QosUro, Defender, Pagefile, Drs and unknown entries are never dropped |
| `Backup.BatchIsKept` | crates/frametime-domain/src/backup.rs:369-379 | storing a batch keeps every entry that was there, and each entry of the batch or an older one about the same setting |
| `Backup.BatchAddsNew` | crates/frametime-domain/src/backup.rs:369-379 | what a batch adds are entries of it, none about the same setting as an earlier one |
| `Backup.BackupFile.PushBatch` | crates/frametime-windows/src/backend/live.rs:212-231 | a whole batch is merged into the stored entries, first values winning |
| `Backup.RestoreAllIsFirstSaved` | crates/frametime-domain/src/backup.rs:381-383 | restoring in reverse gives each resource the value of the oldest entry that names it, and leaves the others alone |
| `Backup.RestoreForgetsCovered` | crates/frametime-domain/src/backup.rs:369-383 | writes to captured resources never change what a restore produces |
| `Backup.PushKeepsRestore` | crates/frametime-domain/src/backup.rs:369-379 | storing entries that hold present values, duplicates included, keeps the result of a restore |
| `Backup.PushCovers` | crates/frametime-domain/src/backup.rs:386-463 | after a merge every resource of the batch can be restored, by its own or by the older entry, if what an entry saves is decided by its kind and its subject up to case |
| `Restore.RestoreStore.RestoreMatching` | crates/frametime-windows/src/backend/public.rs:187-225 | the reverse loop restores the selected entries, keeps failures and unselected ones in their order, and reports success only if none failed and the file was written |
| `Restore.CleanPassRestoresAll` | crates/frametime-windows/src/backend/public.rs:198-216 | a pass without failures restores everything and empties the file |
| `Restore.PassRetains` | crates/frametime-windows/src/backend/public.rs:197-213 | a pass keeps exactly the entries it did not restore, in their order |
| `Restore.PassLeaves` | crates/frametime-windows/src/backend/public.rs:198-211 | a pass leaves each resource with the write of the oldest entry that writes it, a restored value or the leftover of a failure, or else as it was |
| `Restore.PassSparesUncovered` | crates/frametime-windows/src/backend/public.rs:198-211 | no pass touches a resource that no entry names |
| `Restore.PassRestoresReleased` | crates/frametime-windows/src/backend/public.rs:198-211 | a resource that no retained entry names has its oldest saved value back |
| `Restore.RetryConvergesIff` | crates/frametime-windows/src/backend/public.rs:187-225 | retrying what one pass retained gives the clean result, if and only if no oldest value was released before a younger, different one |
| `Restore.RoundConvergesIff` | crates/frametime-windows/src/backend/public.rs:187-225 | the same for a run of the command whose file write may fail, which then loses nothing |
| `Restore.RetriedRestoresConvergeIff` | crates/frametime-windows/src/backend/public.rs:187-225 | any number of partial, failing, crashing and unwritten passes before a clean one is harmless for every failure pattern, if and only if entries sharing a resource agree on it |
| `ProgressRecord.LiveProgress.CompleteStep` | crates/frametime-domain/src/state.rs:364-380 | completion withdraws a skip or advisory and stamps the step |
| `ProgressRecord.LiveProgress.SkipStep` | crates/frametime-domain/src/state.rs:368-389 | a skip withdraws completion and advisory, keeps the time stamps, and raises the skip mark |
| `ProgressRecord.LiveProgress.AcknowledgeStepAdvisory` | crates/frametime-domain/src/state/progress.rs:20-36 | an advisory withdraws completion and skip and keeps its reason |
| `ProgressRecord.LiveProgress.ResolvedCountInPhase` | crates/frametime-domain/src/state.rs:351-358 | counts the catalog steps of a phase that are completed or skipped |
| `ProgressRecord.LastUpdateWins` | crates/frametime-domain/src/state.rs:372-389 | after any updates a step is recorded as its last update says, and never twice |
| `WriteAhead.AppliesWriteStored` | crates/frametime-domain/src/engine.rs:382-516 | whatever an apply may write, which is all the process has captured, was stored by this process right before, with the value it still has |
| `WriteAhead.ChangesAreBackedUp` | crates/frametime-domain/src/engine.rs:382-516 | in every run, under every fault, only applies change settings, none appears or disappears, and each value overwritten is held by a batch this run stored before |
| `Engine.StepEngine.RecordSkip` | crates/frametime-domain/src/engine.rs:339-360 | a skip reaches memory only after it is durable |
| `Engine.StepEngine.RecordAdvisory` | crates/frametime-domain/src/engine.rs:315-337 | an advisory is written first and adopted after |
| `Engine.StepEngine.CompleteLiveStep` | crates/frametime-domain/src/engine.rs:362-380 | completion is written first and adopted after |
| `Engine.StepEngine.CaptureLossless` | crates/frametime-domain/src/engine.rs:392-420 | capture must give a nonempty batch, which is persisted before anything else |
| `Engine.StepEngine.RunEvidence` | crates/frametime-domain/src/engine.rs:422-464 | the observation path validates and stores its receipt before and verifies it after |
| `Engine.StepEngine.RunRebuildable` | crates/frametime-domain/src/engine.rs:466-503 | a valid pending audit bound to the step is stored before the mutation and finalized after its verification |
| `Engine.StepEngine.RunPendingIrreversible` | crates/frametime-domain/src/engine.rs:518-566 | the irreversible audit is stored first and closed as verified or failed whatever happens |
| `Engine.StepEngine.RunIrreversible` | crates/frametime-domain/src/engine.rs:505-516 | mixed steps persist their backups before the audit |
| `Engine.StepEngine.RunLiveStep` | crates/frametime-domain/src/engine.rs:270-313 | each inspection outcome and recovery class takes its own path |
| `Engine.StepEngine.ReportDryRun` | crates/frametime-domain/src/engine.rs:235-268 | a dry run plans and counts, and stores nothing |
| `Engine.StepEngine.RunStep` | crates/frametime-domain/src/engine.rs:176-233 | recorded steps are passed over, cancellation and policy are honoured, then the step is inspected and run |
| `Engine.StepEngine.RunWithControl` | crates/frametime-domain/src/engine.rs:169-204 | a run visits the listed steps in order and stops at the first error, leaving exactly the modelled trace, progress and report |
| `Protocol.VisitFollows` | crates/frametime-domain/src/engine.rs:169-589 | every visit of the engine makes exactly the calls of a protocol that reads its next move off the calls made and their answers, one by one, and ends where and with the error the protocol ends |
| `Protocol.OnlyOneWay` | crates/frametime-domain/src/engine.rs:169-589 | there is no other way to follow the protocol to its end |
| `Recipes.CallsFollow` | crates/frametime-domain/src/engine.rs:169-204 | every call of a run belongs to the visit of a listed step, which began at the start of the run or right after stored progress, and is the protocol's move there |
| `Recipes.CompletionsAreVerified` | crates/frametime-domain/src/engine.rs:270-313 | whatever fails, a record completes a step that was not completed before only right after a successful verification of it, or after a closing record right after one, and all calls of its recipe stand there answered well: the inspection, and then the stored backups, the stored and finalized audit, or the stored and verified receipt, with the apply and the verification after them |
| `Recipes.SkipsAreDecided` | crates/frametime-domain/src/engine.rs:206-360 | a step becomes skipped only right after an inspection that found it inapplicable, a refused consent that the profile asks for, or a poll when the profile never runs it; no other step does |
| `Recipes.AdvisoriesAreFound` | crates/frametime-domain/src/engine.rs:288-337 | a step gets an advisory only right after its inspection gave that very reason |
| `Recipes.InspectionsAreAgreed` | crates/frametime-domain/src/engine.rs:206-233 | every live inspection, and so every mutation, is of a step that the profile runs unasked or that the user has just agreed to, after a poll that let it go on |
| `Recipes.AppliesAreNeeded` | crates/frametime-domain/src/engine.rs:270-313 | every mutation is of a listed step that is not check-only and that an inspection of the same visit found in need of it |
| `Catalog.DecideIff` | crates/frametime-domain/src/policy.rs:24-63 | which tiers and risks each profile runs unasked, and which it asks for; it skips the others |
| `Schedule.ProfilesDecide` | crates/frametime-domain/src/catalog.rs:37-686 | for each profile exactly which of the 54 scheduled steps it runs unasked and which it asks for |
| `Schedule.OnlyTheseMutate` | crates/frametime-domain/src/catalog.rs:37-686 | under any profile, on any machine, whatever fails, a live run of scheduled steps applies nothing but P1:8, P1:12, P1:30 and P1:34, and P2:1 if it is given to the engine; under the safe profile nothing but P1:12 and P2:1 |
| `Schedule.ScheduleNeedsCustom` | crates/frametime-domain/src/catalog.rs:37-686 | under every profile but the custom one no live run of the schedule resolves P1:3, P1:4, P1:6 or P1:16 |
| `Schedule.RolesAre` | crates/frametime-domain/src/catalog.rs:729-737 | which steps are not the engine's, which store a receipt, and which need a manual recovery |
| `EventLog.VisitTells` | crates/frametime-domain/src/engine.rs:235-589 | a visit adds to the event log exactly what its calls and answers tell, in order: captures and inspections announced before, everything else reported once it succeeded, a skip even if it could not be stored |
| `EventLog.DryVisitCounts` | crates/frametime-domain/src/engine.rs:235-268 | a dry visit inspects and plans, and counts its step by what the inspection found, or counts it skipped without a call if the profile never runs it |
| `EngineRuns.LiveStepSyncs` | crates/frametime-domain/src/engine.rs:270-380 | after every live step, failed or not, memory holds what was last stored |
| `EngineRuns.RunAppend` | crates/frametime-domain/src/engine.rs:169-204 | running xs then ys is running xs ++ ys |
| `EngineRuns.ErrorStopsAtPrefix` | crates/frametime-domain/src/engine.rs:169-221 | an error at step i leaves progress and disk as a run of exactly the steps before i leaves them |
| `EngineRuns.RerunIsSilent` | crates/frametime-domain/src/engine.rs:206-221 | re-running a finished list makes no backend call and polls neither consent nor cancellation |
| `EngineRuns.LiveRunAccounts` | crates/frametime-domain/src/engine.rs:169-380 | in a successful live run the record sets stay disjoint and each grows by exactly its counter |
| `EngineRuns.DryRunAccounts` | crates/frametime-domain/src/engine.rs:235-268 | a successful dry run counts each unrecorded step once, only inspects and plans, and changes neither progress nor storage |
| `WriteAhead.RunsAreSound` | crates/frametime-domain/src/engine.rs:270-589 | every run, under every fault pattern, is write-ahead and closes its irreversible audits |
| `WriteAhead.AppliesAreWrittenAhead` | crates/frametime-domain/src/engine.rs:382-566 | each apply call stands right after the inspection of its step and the successful capture and storing of the nonempty, step-bound recovery record its class demands, all in this run |
| `WriteAhead.FailuresAreJust` | crates/frametime-domain/src/engine.rs:540-566 | an audit is closed as failed only right after the apply or the verification of its irreversible step failed |
| `WriteAhead.IrreversibleAppliesAreClosed` | crates/frametime-domain/src/engine.rs:518-566 | after an irreversible apply the very audit stored before is closed, changed in its outcome alone |
| `Undo.ApplyKeepsUndoIff` | crates/frametime-windows/src/backend/live.rs:253-260 | an apply keeps the originals restorable whatever it writes, if and only if all that was captured is stored; the gate, which asks for a capture alone, does not ensure it |
| `Undo.AppliesAreStored` | crates/frametime-domain/src/engine.rs:382-516 | the engine's order does: at every apply of every process all that was captured is in the backup file |
| `Undo.ReplayKeepsUndo` | crates/frametime-domain/src/engine.rs:382-566 | no process, whatever fails in it and wherever it stops, loses the ability to restore the originals |
| `Undo.RestoreKeepsUndoIff` | crates/frametime-windows/src/backend/public.rs:187-225 | one run of the restore command, failing, crashing or unwritten, keeps the originals restorable if and only if it releases no oldest value before a younger, different one |
| `Undo.RetriedSessionsAreUndone` | crates/frametime-windows/src/backend/public.rs:187-225 | after any sessions that fail, crash after any call and retry, interleaved with such restores, one clean restore returns every setting to its first value and empties the file, if what a captured entry saves is decided by its kind and its subject up to case; more failing restores before it are harmless if and only if the entries sharing a resource agree |
| `Undo.CompletedSessionIsTheRun` | crates/frametime-domain/src/engine.rs:169-204 | a session that does not crash is the engine run |
| `LiveSteps.FindingsAre` | crates/frametime-windows/src/operations/action_runtime/mod.rs:22-77 | exactly which steps a live inspection can let go on, give advice for, or find inapplicable |
| `LiveTable.FindingIff` | crates/frametime-windows/src/operations/action_runtime/mod.rs:22-77 | by step number, exactly when a live inspection fails, finds its step satisfied, in need, inapplicable or unsupported, or gives advice |
| `LiveTable.CallsAre` | crates/frametime-windows/src/backend/live.rs:42-317 | by step number, what each call answers and what it leaves of the lock, the captured steps, the bindings and the backup file |
| `LiveTransaction.LiveBackend.InspectOperation` | crates/frametime-windows/src/backend/live.rs:42-125 | an inspection finds what its native action allows, never lets an unavailable step go on, and binds the devices of P3:2 and P3:3 |
| `LiveTransaction.LiveBackend.CaptureBackups` | crates/frametime-windows/src/backend/live.rs:133-144 | a capture needs a capturable step and a free transaction lock, binds P1:8, P1:16, P1:30, P1:34 and P3:4, and releases the lock if it fails, but for the early returns of P3:2, P3:3 and P3:4 |
| `LiveTransaction.LiveBackend.PersistBackups` | crates/frametime-windows/src/backend/live.rs:197-238 | persisting needs the lock, merges first values, and gives up the transaction if the write fails |
| `LiveTransaction.LiveBackend.CaptureIrreversibleAudit` | crates/frametime-windows/src/storage/irreversible_audit.rs:36-76 | a driver step takes the lock and captures no step, a mixed one needs the lock held, any other is refused; a pending record that stands is found again, and several are refused |
| `LiveTransaction.LiveBackend.PersistIrreversibleAudit` | crates/frametime-windows/src/storage/irreversible_audit.rs:78-103 | a valid pending audit is stored once, only under the lock and only if no other stands for its step; the transaction stays as it is |
| `LiveTransaction.LiveBackend.ReplaceIrreversibleAudit` | crates/frametime-windows/src/storage/irreversible_audit.rs:105-141 | the loop replaces exactly one pending record by its closing, only under the lock, and otherwise stores nothing |
| `LiveTransaction.LiveBackend.FinalizeIrreversibleAudit` | crates/frametime-windows/src/backend/live.rs:183-188 | a verified audit closes its record and leaves the transaction open |
| `LiveTransaction.LiveBackend.FailIrreversibleAudit` | crates/frametime-windows/src/backend/live.rs:189-196 | a failed outcome ends the transaction whether stored or not |
| `LiveTransaction.NextKeepsSinglePending` | crates/frametime-windows/src/storage/irreversible_audit.rs:36-141 | no call leaves two pending records of a step |
| `AuditFile.SinglePendingStays` | crates/frametime-windows/src/storage/irreversible_audit.rs:79-136 | storing and closing keep one pending record per step, so no capture is ambiguous |
| `AuditFile.PendingIrreversibleIff` | crates/frametime-domain/src/audit.rs:280-305 | an irreversible audit may be stored before a mutation if and only if it is of the kind and step, dated, pending, for the one target of P1:13, P2:2 or P3:1, and lists its packages in order |
| `AuditFile.PendingRebuildableIff` | crates/frametime-domain/src/audit.rs:113-134 | a rebuildable one if and only if it is of the step, dated, pending, and lists distinct caches in the fixed order, all four for P1:3 |
| `AuditFile.PersistedIff` | crates/frametime-windows/src/storage/irreversible_audit.rs:78-103 | a record is stored if and only if it is valid and none but itself is pending for its step, at the end or where it stood |
| `AuditFile.RetryFindsPending` | crates/frametime-windows/src/storage/irreversible_audit.rs:58-103 | every later capture finds the stored pending record, and storing it again changes nothing |
| `AuditFile.ClosingReplacesPending` | crates/frametime-windows/src/storage/irreversible_audit.rs:105-141 | closing a stored pending record always succeeds, replaces that record alone and leaves none pending for the step |
| `LiveTransaction.LiveBackend.ApplyOperation` | crates/frametime-windows/src/backend/live.rs:239-266 | driver steps need the authority of the runtime; other mutations need a captured step and the lock, and failure abandons the transaction |
| `LiveTransaction.LiveBackend.VerifyOperation` | crates/frametime-windows/src/backend/live.rs:267-299 | guidance, preparation, handoff and driver steps always verify; a failed verification abandons the transaction of its step, but for observations and missing bindings of P1:16 and P1:34, which return early |
| `LiveTransaction.LiveBackend.StoreProgress` | crates/frametime-windows/src/backend/live.rs:300-313 | stored progress ends the transaction |
| `LiveTransaction.LiveBackend.ClearTransactionState` | crates/frametime-windows/src/backend/transaction.rs:3-13 | the lock, every captured step and every binding but the page file's are dropped |
| `LiveTransaction.LiveBackend.AbandonTransaction` | crates/frametime-windows/src/backend/transaction.rs:15-25 | the lock and one captured step with its binding are dropped |
| `LiveTransaction.CapturedIff` | crates/frametime-windows/src/backend/transaction.rs:3-25 | a step counts as captured exactly if some call captured it and none since gave it up |
| `LiveTransaction.MutationFollowsCapture` | crates/frametime-windows/src/backend/live.rs:253-260 | over every call sequence an ordinary mutation follows a standing capture of its own step |
| `LiveTransaction.HeldSinceIff` | crates/frametime-windows/src/backend/transaction.rs:15-25 | the lock of a standing capture is lost exactly by giving up another step |
| `LiveTransaction.StaleIff` | crates/frametime-windows/src/backend/live.rs:253-298 | over every call sequence a mutation rests on a capture older than its lock, if and only if another step was given up after each standing capture of its own |
| `LiveTransaction.StaleIsPossible` | crates/frametime-windows/src/backend/live.rs:295-297 | a failed verification of another step followed by its capture is such a sequence |
| `LiveTransaction.LockRefusesCaptures` | crates/frametime-windows/src/backend/live.rs:139-142 | a held lock refuses every capture until a call clears or abandons it |
| `LiveRuns.EveryMachineLives` | crates/frametime-windows/src/backend/live.rs:42-317 | every machine with any faults, its answers given by the live backend, is one the run results are about |
| `LiveRuns.VisitsStartFree` | crates/frametime-domain/src/engine.rs:206-233 | in every run, under every fault, a step is polled, asked for and inspected with the lock free and no step captured |
| `LiveRuns.RunsEndFree` | crates/frametime-windows/src/backend/live.rs:300-313 | a run without an error leaves no transaction open |
| `LiveRuns.MutationsAreFresh` | crates/frametime-domain/src/engine.rs:382-566 | at every apply of every run the lock was taken in this visit by the only standing capture, that of the step, which is one that live inspections let go on; so no mutation is stale |
| `LiveRuns.UnavailableStepsNeverRun` | crates/frametime-windows/src/operations/action_runtime/mod.rs:36-42 | no live run, on any machine and under any fault, applies or completes P1:16, P2:2, P3:1 or P3:4, or closes an audit as failed |
| `LiveRuns.RunMarks` | crates/frametime-domain/src/engine.rs:206-313 | in a live run a step is newly completed, advised or skipped only as its inspection, the policy and the consent allow |
| `LiveRuns.PhaseOneNeedsCustom` | crates/frametime-domain/src/orchestration.rs:299-320 | under every profile but the custom one no live run resolves P1:3, P1:4, P1:6 or P1:16, so the Safe Mode guard refuses |
| `LiveRuns.SatisfiedFailsIff` | crates/frametime-windows/src/backend/live.rs:267-299 | a visit that finds its step satisfied fails to verify it if and only if the step is P1:30 or P1:34, or P1:8 without a captured page file, or its verification looks at the machine and does not succeed |
| `LiveRuns.SatisfiedVisitsFail` | crates/frametime-windows/src/system/pagefile.rs:205-217 | for each of the three steps such a failing visit on a machine where everything works |
| `LiveRuns.StoredIsBackups` | crates/frametime-windows/src/backend/live.rs:197-238 | after any calls the backup file of the live backend is the durable backups of the engine model |
| `Orchestration.RequireResolvedPhaseOne` | crates/frametime-domain/src/orchestration.rs:299-316 | no refusal if and only if every engine step of Phase 1 is completed, skipped or an authorized advisory |
| `Orchestration.RequireCompletedPhaseTwo` | crates/frametime-domain/src/orchestration.rs:181-210 | no refusal if and only if every Phase 2 step is completed |
| `OrchestrationProofs.AuthorizeIff` | crates/frametime-domain/src/orchestration.rs:129-256 | each of the six requests is granted, and what, exactly on the listed facts and recorded steps |
| `OrchestrationProofs.RefusalsAreTrue` | crates/frametime-domain/src/orchestration.rs:129-360 | every refusal of every request names a fact that holds |
| `Orchestration.UnavailableNeverGrants` | crates/frametime-domain/src/orchestration.rs:129-360 | losing evidence never turns a refusal into a grant and never changes what is granted |
| `Orchestration.GrantPins` | crates/frametime-domain/src/orchestration.rs:129-256 | the boot mode, stage and Run evidence that each grant needs |
| `Orchestration.AuthorizationIsExclusive` | crates/frametime-domain/src/orchestration.rs:129-256 | requests granted on the same facts fit in {Optimize, ArmSafeMode}, {PhaseTwo}, {PhaseThree, FinalBenchmark} or {FinalBenchmark, Clear} |
| `Orchestration.MigrationRefusesIff` | crates/frametime-domain/src/migration.rs:62-109 | in a normal boot the migration check refuses exactly what the Optimize guard refuses, a recorded transaction, or an incomplete runtime |
| `OrchestrationProofs.AssessIff` | crates/frametime-domain/src/migration.rs:62-109 | each migration decision exactly, for files that are there or not: refused with its reason, not needed, to be confirmed as idle, or to be confirmed with the exact counts of completed and skipped Phase 1 steps |
| `OrchestrationProofs.NativeAssessIff` | crates/frametime-app/src/workflow.rs:361-383 | what a native inspection leads to: every mechanism that is armed or cannot be inspected refuses, and an armed one is named |
| `OrchestrationProofs.OptimizeNeedsYes` | crates/frametime-app/src/workflow.rs:327-359 | with both files read Phase 1 passes the check if and only if nothing is armed or recorded and the user confirmed |
| `LifecycleProofs.NextKeepsInv` | crates/frametime-app/src/workflow.rs:28-273 | every command start, durable write, record, reset, reboot, crash and outside change keeps the invariant |
| `LifecycleProofs.RunsKeepInv` | crates/frametime-app/src/workflow.rs:28-273 | the invariant holds in every state of every run |
| `LifecycleCommands.StartsIff` | crates/frametime-app/src/workflow.rs:28-273 | each command starts, and each phase ends, exactly on the listed conditions, and at which write |
| `LifecycleCommands.PublishIff` | crates/frametime-app/src/workflow.rs:46-83 | the runtime is published at the end of Phase 1 exactly if every step before the handoff is resolved |
| `LifecycleCommands.ResetIff` | crates/frametime-app/src/workflow/live_commands.rs:75-81 | the progress is reset exactly in a normal boot with nothing armed and no transaction |
| `LifecycleCommands.RecordIff` | crates/frametime-app/src/workflow.rs:28-273 | which steps each phase may record, once each |
| `LifecycleCommands.ArmWrites` | crates/frametime-windows/src/reboot/handoff.rs:13-50 | arming Safe Mode writes RunOnce, the Safe Boot flag, the reboot state and P1:38, in this order and nothing else |
| `LifecycleCommands.ClearWrites` | crates/frametime-windows/src/reboot/handoff.rs:52-84 | Phase 2 clears the Safe Boot flag, moves the stage and records P2:1, in this order and nothing else |
| `LifecycleCommands.HandoffWrites` | crates/frametime-windows/src/reboot/handoff.rs:86-127 | after the removal it writes the Run value, moves the stage and records P2:3, in this order and nothing else |
| `LifecycleCommands.FinalWrites` | crates/frametime-windows/src/storage/persistence.rs:261-325 | the final benchmark writes the history, the state with its stage and P3:13, in this order and nothing else |
| `LifecycleCommands.HandoffIsCleared` | crates/frametime-windows/src/reboot/handoff.rs:164-208 | once authorized the Run value goes and nothing else |
| `LifecycleProofs.RemovalOnlyInSafeMode` | crates/frametime-app/src/workflow.rs:108-139 | driver removal starts only in Safe Mode, with P2:1 completed and the Safe Boot flag gone |
| `LifecycleProofs.PhaseThreeNeedsPhaseTwo` | crates/frametime-app/src/workflow.rs:141-208 | no Phase 3 step is recorded unless every Phase 2 step is completed |
| `LifecycleProofs.HandoffClearedOnlyWhenComplete` | crates/frametime-windows/src/reboot/handoff.rs:164-208 | the program removes the Phase 3 handoff only with P3:1 to P3:13 resolved and coherent benchmark files |
| `LifecycleProofs.StageOnlyMovesForward` | crates/frametime-domain/src/handoff.rs:100-108 | the reboot stage never moves back |
| `LifecycleResume.StartableIff` | crates/frametime-domain/src/orchestration.rs:129-256 | in every idle state that can be reached, some command can start if and only if the boot mode, Safe Boot, handoff values, runtime and records are as the stage needs |
| `LifecycleResume.ResumesByRebootsIff` | crates/frametime-domain/src/orchestration.rs:129-256 | some reboots lead to a command that can start, if and only if these needs, the boot mode aside, are met |
| `LifecycleResume.ResumesIff` | crates/frametime-domain/src/orchestration.rs:129-256 | some reboots and outside changes lead to a command that can start, if and only if the handoff is not torn |
| `LifecycleResume.CrashTearsIff` | crates/frametime-windows/src/reboot/handoff.rs:13-128 | a crash tears the handoff if and only if it falls between the state write and the progress write of P1:38, P2:1 or P2:3 |
| `LifecycleResume.CrashResumesByReboots` | crates/frametime-windows/src/reboot/handoff.rs:13-128 | any other crash resumes by reboots alone if and only if the needs of the stage are met, which they never are between the Safe Boot removal and the P2:1 state write |
| `LifecycleResume.TornHandoffStaysClosed` | crates/frametime-domain/src/orchestration.rs:129-256 | no command starts on a torn handoff, and every other action leaves it torn |
| `LifecycleResume.CrashedFinalBenchmarkRestartsIff` | crates/frametime-app/src/workflow.rs:232-258 | after a crash at any write of the final benchmark the same command starts again, if and only if the boot, runtime, Run and user evidence are there |
| `LifecycleWitness.TornForever` | crates/frametime-domain/src/orchestration.rs:129-256 | over every run, once a handoff is torn no command ever starts and no action, reboot or outside change moves the stage again |
| `LifecycleProgram.ProgressIsWritten` | crates/frametime-app/src/workflow.rs:28-273 | the progress changes only by a record, a reset or the last write of a bundle |
| `LifecycleProgram.VisitsAreSupported` | crates/frametime-domain/src/engine.rs:206-313 | what a visit of the live engine records, on any machine and under any fault, is a record the lifecycle's program supports |
| `LifecycleProgram.ArmingNeedsCustom` | crates/frametime-app/src/workflow.rs:28-106 | in every run that never uses the custom profile Phase 1 stays unresolved and Safe Mode unarmed |
| `LifecycleProgram.PhaseThreeNeedsDrivers` | crates/frametime-windows/src/operations/action_runtime/mod.rs:36-38 | in every run P2:2 stays uncompleted while its inspection fails, the stage stays before Phase 3, and nothing of Phase 3 is recorded |
| `LifecycleWitness.TornHandoffsAreReachableIff` | crates/frametime-windows/src/reboot/handoff.rs:13-128 | some run tears P1:38 and P2:1 if and only if the custom profile is used, and P2:3 if and only if the driver steps could go on as well |
| `LifecycleWitness.StagesAreReachableIff` | crates/frametime-domain/src/handoff.rs:100-108 | the same for the stages that some run reaches |
| `LifecycleWitness.LostSafeBootIsReachable` | crates/frametime-windows/src/reboot/handoff.rs:75-79 | some run with the custom profile removes the Safe Boot flag and crashes, and then no reboots resume, though an outside change does |
| `LifecycleWitness.WholeScheduleIsReachable` | crates/frametime-domain/src/orchestration.rs:129-256 | the guards admit a run that resolves all 54 steps, completing each that can be, and ends in a normal boot with every handoff cleared, provided the driver steps could go on |
| `Benchmark.Reproduced` | crates/frametime-windows/src/storage/persistence.rs:417-428 | what stays pending is the prepared commit, and it reproduces the receipt already stored |
| `BenchmarkProofs.BaselineBundle` | crates/frametime-domain/src/benchmark.rs:44-125 | a prepared baseline holds exactly one baseline record, with the same aggregate in history and state and the same time in history and progress |
| `BenchmarkConditions.PrepareBaselineIff` | crates/frametime-domain/src/benchmark.rs:44-125 | when a baseline bundle is prepared, exactly, on the fields of the three files and the capture |
| `BenchmarkConditions.ValidateBaselineIff` | crates/frametime-domain/src/benchmark.rs:129-165 | when a stored baseline validates, exactly, and with which record |
| `BenchmarkConditions.AppendedIs` | crates/frametime-domain/src/benchmark.rs:111-114 | the new record comes last, and of the old ones the newest stay, two hundred in all |
| `BenchmarkProofs.BaselineConverges` | crates/frametime-domain/src/benchmark.rs:44-165 | preparing again after any prefix of history, state, progress gives the same three files and time; the whole bundle validates and is reported idempotent |
| `BenchmarkProofs.BaselineCaptureIsFixed` | crates/frametime-domain/src/benchmark.rs:60-74 | once the history is written no other capture is accepted, whatever the other files hold |
| `BenchmarkProofs.FinalBundle` | crates/frametime-domain/src/benchmark.rs:311-408 | what a prepared final bundle holds, and that its receipt is the only record naming the transaction |
| `BenchmarkConditions.PrepareFinalIff` | crates/frametime-domain/src/benchmark.rs:311-408 | when a final bundle is prepared, exactly, on the fields of the files, the configuration and the capture |
| `BenchmarkConditions.ValidateFinalIff` | crates/frametime-domain/src/benchmark.rs:410-461 | when a stored final bundle validates, exactly, and with which receipt |
| `BenchmarkConditions.CapIff` | crates/frametime-domain/src/fps.rs:36-62 | the measured cap: none for an unmeasured raw-latency strategy, otherwise the asked one if at least five runs held it in their worst percentile |
| `BenchmarkConditions.ReconcileIff` | crates/frametime-windows/src/storage/persistence.rs:351-432 | what a retry answers, exactly: the stored receipt once the step is complete, or the bundle that stays to be written, under the id and time that the files name already or under fresh ones |
| `BenchmarkProofs.FinalAllOrNothing` | crates/frametime-domain/src/benchmark.rs:311-461 | of the eight old and new mixtures only the all-new one validates and only the all-old one can be prepared |
| `BenchmarkProofs.CommitReconciles` | crates/frametime-windows/src/storage/persistence.rs:351-432 | reconciling one or two of the three writes under any configuration prepares the same commit with the newly measured cap, unless a stored receipt holds another |
| `BenchmarkProofs.CommitCompletes` | crates/frametime-windows/src/storage/persistence.rs:363-370 | reconciling the whole bundle reports its receipt under any configuration |
| `BenchmarkProofs.FinalCaptureIsFixed` | crates/frametime-windows/src/storage/persistence.rs:351-432 | once the history is written no other capture is accepted, whatever the other files and the configuration hold |
| `BenchmarkProofs.RetriesSettle` | crates/frametime-windows/src/storage/persistence.rs:261-325 | after any retries with any captures and configurations that crash anywhere, the disk holds part of the first written bundle and of no other; only the cap may come from the attempt that first writes the state |
| `BenchmarkProofs.RetriesAnswer` | crates/frametime-windows/src/storage/persistence.rs:351-432 | what the next attempt answers then: the stored receipt, the same bundle again, or a refusal, each on its exact condition |
| `BenchmarkProofs.RetriesKeepFirstCommit` | crates/frametime-windows/src/storage/persistence.rs:261-325 | retries with the first capture and cap leave the first commit, as far as the furthest attempt got |
| `BenchmarkStore.Store.PersistBaseline` | crates/frametime-windows/src/storage/persistence.rs:210-255 | writes history, state, progress in this order; wherever it stops the files are that prefix of the prepared bundle; success means the stored bundle validates |
| `BenchmarkStore.Store.PersistFinal` | crates/frametime-windows/src/storage/persistence.rs:261-325 | the same for the final bundle; success returns the receipt that the stored files validate to |
| `BenchmarkStore.BaselineRetriesKeepFirst` | crates/frametime-windows/src/storage/persistence.rs:207-255 | after any baseline retries with any captures and clocks, stopped anywhere, the disk holds the first written bundle, with its time, as far as the furthest attempt with its capture got |
| `Autoexec.EnsureLine` | crates/frametime-domain/src/cs2.rs:48-74 | the result executes optimization.cfg, extends the old text, and differs from it only if it lacked the line |
| `Autoexec.LinesAppend` | crates/frametime-domain/src/cs2.rs:48-51 | text appended to whole lines does not change them |
| `Autoexec.EnsuredHasExec` | crates/frametime-domain/src/cs2.rs:48-81 | the bootstrap line is the last line, and is recognized as such |
| `Autoexec.IsExecIff` | crates/frametime-domain/src/cs2.rs:76-81 | a line counts as the bootstrap line if and only if, up to blanks around it, a comment after it and ASCII case, it is the command |
| `Autoexec.HeadIs` | crates/frametime-domain/src/cs2.rs:56-73 | what is written before the bootstrap line: a line feed unless the old text ends in one, and another unless it ends in two line breaks of one kind or in a blank line |
| `Autoexec.EnsuredIsIdempotent` | crates/frametime-domain/src/cs2.rs:48-74 | bootstrapping twice is bootstrapping once |
| `Autoexec.EnsuredKeepsLines` | crates/frametime-domain/src/cs2.rs:58-73 | the old lines stay the first lines, if and only if the text has the line already or does not end in a bare carriage return |
| `CfgTargets.FileNamesDiffer` | crates/frametime-domain/src/cs2_config/targets.rs:111-131 | no two targets share a file and none is a sidecar |
| `CfgTargets.SortedIsTheSet` | crates/frametime-domain/src/cs2_config/targets.rs:59-67 | an asset set is walked in the declared order without repetition or omission |
| `CfgFiles.OnlyWriteDecides` | crates/frametime-domain/src/cs2_config.rs:296-302 | the only write that names a file decides what it holds; creating never overwrites |
| `Cs2Config.WriteAndVerify` | crates/frametime-domain/src/cs2_config/transaction.rs:5-34 | success means the file holds the bytes; failure leaves it old or new |
| `Cs2Config.BackUpOnce` | crates/frametime-domain/src/cs2_config.rs:785-862 | an original is kept in a sidecar that is created once and never replaced |
| `Cs2Config.Apply` | crates/frametime-domain/src/cs2_config.rs:362-452 | at every failure the files hold a prefix of one fixed list of writes; an undecodable autoexec.cfg refuses before any write; success does all of them and reports them |
| `Cs2Config.Verify` | crates/frametime-domain/src/cs2_config.rs:457-485 | succeeds exactly on files that hold the rendered, bootstrapped and selected contents |
| `Cs2Config.ReplaceIfUnchanged` | crates/frametime-domain/src/cs2_config.rs:553-565 | a target is written only while it holds what was captured |
| `Cs2Config.ApplyOptionalIfUnchanged` | crates/frametime-domain/src/cs2_config.rs:532-573 | the assets are deployed in order up to the first changed target, and only unchanged ones are written |
| `Cs2Config.RestoreTargets` | crates/frametime-domain/src/cs2_config.rs:595-637 | restores a prefix of the snapshots, all of them on success, absence included |
| `CfgBackup.Capture` | crates/frametime-domain/src/backup/cs2_config.rs:317-364 | captures exactly the present contents within the size limits, or says which limit or read failed |
| `CfgBackup.ValidateBytes` | crates/frametime-domain/src/backup/cs2_config.rs:430-466 | accepts exactly consistent snapshots within the limits |
| `CfgBackup.ValidateTargets` | crates/frametime-domain/src/backup/cs2_config.rs:399-428 | accepts exactly the complete ordered consistent transactions, and names the offending target otherwise |
| `CfgBackup.CaptureEntry` | crates/frametime-domain/src/backup/cs2_config.rs:114-152 | what is captured is accepted for restore |
| `CfgBackup.RestoreRequest` | crates/frametime-domain/src/backup/cs2_config.rs:220-249 | nothing is written unless the transaction is accepted and fully known |
| `CfgBackup.RestoreOptional` | crates/frametime-domain/src/backup/cs2_config.rs:251-280 | the same for an optional transaction, which names its own assets |
| `CfgBackup.ApplyOptional` | crates/frametime-domain/src/backup/cs2_config.rs:284-314 | deploys the captured assets only from an accepted transaction |
| `CfgProofs.RestoreUndoes` | crates/frametime-domain/src/cs2_config.rs:595-637 | whatever happened to the targets, restoring gives the captured files back exactly and touches nothing else |
| `CfgProofs.InterruptedRestoreConverges` | crates/frametime-domain/src/cs2_config.rs:608-635 | repeating an interrupted restore gives the complete one |
| `CfgProofs.OptionalUndo` | crates/frametime-domain/src/backup/cs2_config.rs:251-314 | capture, any prefix of a deployment, restore is the identity on files |
| `CfgProofs.ChangedTargetIsKept` | crates/frametime-domain/src/cs2_config.rs:553-557 | a target that changed after its capture is never overwritten |
| `CfgProofs.WritesStayInside` | crates/frametime-domain/src/cs2_config.rs:362-452 | an apply replaces only targets and creates only sidecars |
| `CfgProofs.ApplyUndo` | crates/frametime-domain/src/backup/cs2_config.rs:220-249 | capture, any prefix of an apply, restore gives the original files plus the sidecars created |
| `CfgProofs.CreatesChangeNothingIff` | crates/frametime-domain/src/cs2_config.rs:785-862 | that is the original exactly if and only if every sidecar written was there before |
| `CfgProofs.OthersAreUntouched` | crates/frametime-domain/src/cs2_config.rs:362-452 | no other file changes, and an existing sidecar is never altered |
| `CfgProofs.SidecarComesFirst` | crates/frametime-domain/src/cs2_config.rs:405-438 | a file is replaced only after its original is in the sidecar |
| `CfgProofs.OriginalsAreKept` | crates/frametime-domain/src/cs2_config.rs:405-438 | on success or any failure, a changed optimization.cfg or autoexec.cfg has its original in its sidecar, unless that held an older one |
| `CfgProofs.ApplyEstablishesVerify` | crates/frametime-domain/src/cs2_config.rs:362-485 | after a complete apply verification succeeds |
| `CfgProofs.ApplyIs` | crates/frametime-domain/src/cs2_config.rs:362-452 | what every file of the directory holds after a complete apply: the rendered file, the bootstrapped autoexec.cfg, each selected asset, both sidecars, and every other file unchanged |
| `CfgProofs.VerifiedApply` | crates/frametime-domain/src/cs2_config.rs:362-452 | applying to verified files changes at most a missing sidecar |
| `CfgProofs.ReapplyChangesNothingIff` | crates/frametime-domain/src/cs2_config.rs:362-452 | a second apply of the same request changes no managed file, and no file at all exactly if optimization.cfg or its sidecar was there; a third changes nothing |
| `SteamVdf.Lexer.SkipSpaceAndComments` | crates/frametime-domain/src/steam.rs:146-167 | moves the offset over whitespace and line comments only |
| `SteamVdf.Lexer.ReadQuoted` | crates/frametime-domain/src/steam.rs:168-196 | reads one string, always advances, and rejects NUL, non-ASCII, other escapes and a missing quote |
| `SteamVdf.Lexer.Tokens` | crates/frametime-domain/src/steam.rs:128-145 | consumes the whole source into tokens |
| `SteamVdf.ParseObject` | crates/frametime-domain/src/steam.rs:64-107 | the cursor moves over every nested object and stays in bounds |
| `SteamVdf.OutermostTakesAll` | crates/frametime-domain/src/steam.rs:54-62 | the outermost object leaves no token behind |
| `SteamVdf.ParseVdf` | crates/frametime-domain/src/steam.rs:54-62 | the parser computes the meaning of the text |
| `VdfProofs.ParseItems` | crates/frametime-domain/src/steam.rs:64-107 | printed items with distinct keys parse to the object that holds them |
| `VdfProofs.ParsedItems` | crates/frametime-domain/src/steam.rs:64-107 | whatever parses is a printed list of items with distinct keys |
| `VdfProofs.LexLayout` | crates/frametime-domain/src/steam.rs:128-196 | tokens laid out with any gaps of tabs, line feeds, form feeds, carriage returns, spaces and // comments lex back to themselves |
| `VdfProofs.Lexed` | crates/frametime-domain/src/steam.rs:128-196 | whatever lexes is a layout of its tokens |
| `VdfProofs.RoundTrip` | crates/frametime-domain/src/steam.rs:54-196 | a printed tree parses to its meaning, for any whitespace and comments between its tokens |
| `VdfProofs.AcceptedIff` | crates/frametime-domain/src/steam.rs:54-196 | a text is accepted with a meaning if and only if it is, byte by byte, a printed tree with that meaning |
| `Smbios.NextStructure` | crates/frametime-windows/src/diagnostics/smbios.rs:125-154 | one structure: in bounds, at least six bytes forward |
| `Smbios.ParseChannel` | crates/frametime-windows/src/diagnostics/smbios.rs:181-208 | reads exactly the listed handles, or rejects a truncated list |
| `Smbios.Collect` | crates/frametime-windows/src/diagnostics/smbios.rs:40-66 | the walk loop collects devices, channels and handles as specified |
| `Smbios.ParseMemoryTopology` | crates/frametime-windows/src/diagnostics/smbios.rs:39-106 | the whole parser computes the specified topology |
| `SmbiosProofs.WalkInvertsEncoding` | crates/frametime-windows/src/diagnostics/smbios.rs:125-154 | walking an encoded table (sections 6.1.2 and 6.1.3 of DMTF DSP0134) yields exactly its formatted areas |
| `SmbiosProofs.WalkTilesIff` | crates/frametime-windows/src/diagnostics/smbios.rs:46-66 | the walk succeeds exactly on tables that its pieces and their string sets tile |
| `SmbiosProofs.AddAllFinds` | crates/frametime-windows/src/diagnostics/smbios.rs:49-65 | what is collected is the map of the devices and the list of the channels |
| `SmbiosProofs.UsableIff` | crates/frametime-windows/src/diagnostics/smbios.rs:68-106 | when the structures give a usable topology, and which, and when they are read without an error, on their bytes |
| `SmbiosProofs.ParsedTopologyIff` | crates/frametime-windows/src/diagnostics/smbios.rs:39-123 | a buffer gives a topology exactly if bytes 4 to 7 hold the length of its table, structures and string sets tile the table, and the structures are usable |
| `SmbiosProofs.TopologyIsExact` | crates/frametime-windows/src/diagnostics/smbios.rs:68-106 | nonempty, pairwise disjoint lists whose union is exactly the Type 17 handles whose size bytes say that a module is installed (section 7.18 of DSP0134), and a count of all Type 37 structures (section 7.38) |
| `SmbiosProofs.DeviceOrderIsIrrelevant` | crates/frametime-windows/src/diagnostics/smbios.rs:41-66 | moving Type 17 structures or changing other types never changes the result |
| `Calendar.DaysIsTheSum` | crates/frametime-domain/src/driver/evidence.rs:46-54 | the closed form is the sum of the lengths of the years and months before |
| `Calendar.TimestampIff` | crates/frametime-domain/src/driver/evidence.rs:11-57 | which texts are timestamps, byte by byte, and their second count: the days of the years, months and days before, and the seconds of the day |
| `Calendar.LessIff` | crates/frametime-domain/src/driver/evidence.rs:90-105 | strings are ordered by their first different byte, a proper prefix first |
| `Calendar.StringOrder` | crates/frametime-domain/src/driver/evidence.rs:11-44 | accepted timestamps (section 5.6 of RFC 3339, Z only) compare as strings as their fields do |
| `Calendar.TimestampOrder` | crates/frametime-domain/src/driver/evidence.rs:11-57 | they compare as strings exactly as their second counts do, and only equal strings have equal counts |
| `Calendar.DaysAreEqual` | crates/frametime-domain/src/driver/evidence.rs:46-55 | the same time on the next day is 86400 seconds later, over month, leap and year ends |
| `Calendar.TimestampFits` | crates/frametime-domain/src/driver/evidence.rs:46-56 | no accepted timestamp overflows 64 bits |
| `DriverPlan.ValidateInput` | crates/frametime-domain/src/driver/plan.rs:64-80 | accepts exactly nonempty inputs for the exact GPU with distinct names |
| `DriverPlan.ValidateSet` | crates/frametime-domain/src/driver/evidence.rs:90-105 | accepts exactly the sets in strictly ascending name order |
| `DriverPlan.GeneratePlan` | crates/frametime-domain/src/driver/plan.rs:128-180 | a valid input gives a valid plan over an ascending permutation of its packages, and proposes exactly what `PlanProposes` says |
| `DriverPlan.PlanProposes` | crates/frametime-domain/src/driver/plan.rs:128-180 | the plan records the input's packages, proposes to clean up exactly their names, each once and ascending byte by byte, and to install the input's artifact on its GPU |
| `DriverPlan.SortedOrderIsUnique` | crates/frametime-domain/src/driver/plan.rs:131-132 | packages with distinct names have one sorted order |
| `DriverPlan.PlanIgnoresOrder` | crates/frametime-domain/src/driver/plan.rs:126-180 | inputs that differ in package order give the same plan and fingerprint |
| `DriverRemoval.ValidateCapture` | crates/frametime-domain/src/driver/evidence.rs:195-233 | accepts exactly captures of a read-only plan, bound to it, confirmed in Safe Mode and within the maximum age |
| `DriverRemoval.ValidateEvidence` | crates/frametime-domain/src/driver/evidence.rs:351-393 | accepts exactly one removed outcome for each captured package and none of them left |
| `DriverRemoval.FromUnsorted` | crates/frametime-domain/src/driver/evidence.rs:77-88 | sorting succeeds exactly for distinct names on one GPU and gives the canonical set |
| `DriverRemoval.CaptureDriverExecution` | crates/frametime-domain/src/driver/adapters.rs:173-215 | succeeds if and only if the answers of the host allow it: Safe Mode proved for the GPU at most the maximum age before the clock, distinct packages of the GPU, exactly those of the plan; then it is the capture of these answers; it removes nothing |
| `DriverRemoval.RemoveCapturedPackages` | crates/frametime-domain/src/driver/adapters.rs:219-260 | succeeds if and only if the capture is still usable, every removal and reading is answered, and the evidence that the answers make is accepted at the last reading; removal calls are a prefix of the captured names in order, none unless the capture is usable |
| `DriverRemoval.AcceptedRemovalIsComplete` | crates/frametime-domain/src/driver/evidence.rs:350-393 | each planned name has one outcome, Removed, and is gone from the fresh inventory; the Safe Mode observation is at most twice the maximum age old |

## Left out

- The engine holds its progress as a value of the stored record; the object that
  the code updates in place is proved equal to it. The reboot transaction and the
  state record are values: the code changes private clones of them and then
  stores the whole record, so no aliasing is observable.
- Identities of backup entries are structured instead of formatted strings, and a
  subject stands for the parts that an identity is made of. The undo theorem assumes
  that what a captured entry saves is decided by its kind and its subject up to case
  and exists, and that an apply writes only settings that its process has captured
  since it last stored progress, stored or not.
- Receipt bodies, schema numbers, user SIDs and runtime records are folded into
  one flag each. Unknown JSON fields, serialization and error texts are left out.
- LiveTransaction.LiveBackend.PersistBackups: the merge of suite-owned plan
  identifiers for P1:6 changes one list inside an entry and is not modelled; the
  live backend captures no such entry, as P1:6 only gives advice. Its refusals
  count as an unreadable file.
- The audit file is its irreversible records; the rebuildable ones, unknown
  fields and the readback after a write are part of whether it can be read and
  written.
- The lifecycle lets P1:16 and P1:17 be recorded while no phase runs, with any
  mark; `LifecycleProgram.Supported` cuts the marks down to what can be recorded.
- Sidecars, managed files and targets are file names in one directory; path
  safety and the install binding are one flag, and the file system is map-like:
  a successful write is read back unless the read itself fails.
- UTF-8, SHA-256, the rendered optimization.cfg, the asset bytes and the comment
  of a new autoexec.cfg are parameters; only the UTF-8 round trip is assumed.
- Frame rates are reals, so finiteness is implicit. Every file write is atomic.
- In the lifecycle native evidence is truthful or unavailable, the same-user
  check is arbitrary, commands do not overlap, and outside changes happen
  between commands. Resumption says which command can start, not that its own
  work then succeeds.
- The error texts of the engine and the lines of a plan are not interpreted.
- The readers built on the VDF parser (library paths, app manifest), the reader
  of the firmware table, artifact acquisition and installation evidence,
  `preview` and the unchecked optional deployment.
- User interface, command line, Win32 and vendor calls, driver packages and
  reboots themselves: foreign effects, present only as call outcomes.
