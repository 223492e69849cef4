# Treseko: verified models of the updater and the generation engine

Treseko is a test management platform. This project models the parts of it whose correctness is hardest to see by
reading, and proves what they promise:

- **The update transaction** (`scripts/atomic_local_update.py`). An update stops the running project, snapshots its
  named volumes, starts a candidate behind a maintenance marker and either releases it or rolls back, and a later run
  recovers from the durable journal alone after a crash at any point. `UpdateTransaction` is a step function over
  events (commands that succeed, fail or are cut, crashes, traffic, faults); `UpdateInvariant`, `UpdateSafety`,
  `UpdateLoss`, `UpdateRecovery`, `UpdateOutcomes` and `UpdatePointer` hold over every run of attempts, crashes and
  recoveries;
  `UpdateProgress` shows that an update can get to its end; `UpdateFaults` shows where every guarantee ends.
- **Versions, manifests and images of a release** (same file): the version order against section 11 of Semantic
  Versioning 2.0.0 (`Versions`, `VersionOrder`), the manifest printer and verifier (`ReleaseManifest`, `ManifestLaws`)
  and the closure of images kept for a rollback (`ImageClosure`).
- **Admission during updates** (`UpdateAdmission`, `RunRoutes`, `SpoolPaths`, `SpoolLoss`): leases and fences of the
  engine under every interleaving, the life of a `/run-task` request, when its spooled result is lost, and when the
  engine can still be drained.
- **Generation of test cases** (`CaseContract`, `CaseAuthoring`): batches that are split in place against an arbitrary
  provider.
- **Fail-closed reviews** (`SemanticReview`, `ReviewSoundness`, `ReviewAcceptance`, `RepairAcceptance`,
  `ReviewMeaning`, `AnalysisAudit`, `AuditReadiness`, `AuditOutcome`): what a report or an audit guarantees for every
  answer a model may give, and exactly which answers get which verdict, before and after a repair.
- **The JSON Schema subset** of test contracts (`JsonSchema`, `JsonSchemaMeaning`, and keyword by keyword
  `JsonKeywords`), **overlapping source parts**
  (`SourcePartition`, `PartitionLaws`), **score calibration** (`WilsonInterval`, `Calibration`) and the **video
  evidence store** (`VideoCleanup`, `VideoEvidence`).

`Wrappers`, `Texts`, `TextLaws`, `TextOrder`, `TextSort` and `Lists` hold shared definitions.
`dafny verify dfyconfig.toml` checks everything. Algorithms that work by loops and updates are methods proved against a
specification function, objects that change are classes, protocols with crashes or several processes are state machines
whose runs are sequences of states.

## Environment of an update run

A run (`UpdateTransaction.BenignRun`) may contain any number of attempts, command failures, cut copies, cut marker
writes, journal saves that fail in a process that survives, writes of every project that is up, and crashes. One thing
is assumed: `_rollback` ignores a failed `down` (lines 1154-1159), and such a failure means that nothing was up. Without
it the rollback always goes wrong: whatever was still up runs beside the old project, which is started on what that
project has just written (`UpdateFaults.IgnoredDownBreaksRollback`), and a candidate takes traffic while its journal is
rolling_back (`UpdateFaults.IgnoredDownAdmitsCandidate`).

Projects never create or remove `.maintenance` themselves. Recovery replaces the identity of the run (lines 613-616), so
one journal can go from a terminal phase back to `preparing`; the statements speak of states and attempts, not of
transaction names. Backup volumes are named by the first twelve characters of the transaction, and the model keeps
every collision of names between transactions.

## Findings

- A rollback can discard writes accepted from clients. Line 1336 sets the phase in memory before the save of
  `committed`, so a save that fails in a surviving process sends the handler into `_rollback` of a released candidate;
  and a project restored by a rollback serves clients before `rolled_back` is durable, so that a crash there makes the
  next run restore again. A restore changes one volume, and discards exactly the client writes to that volume since the
  replaced project was last up. Each of them was accepted by a restored project after the backup of that volume had been
  recorded, or by the candidate of an update whose own `committed` could not be saved
  (`UpdateLoss.RestoreDiscardsExactly`). Every commit and every restored project with such a backup can end this way
  (`UpdateFaults.SurvivedCommitFailureLosesWrite`, `UpdateFaults.LateWriteIsOverwritten`).
- That rollback of a released candidate does not take the active-release pointer back: the old project runs, its journal
  says rolled_back, and the next downgrade check compares with the release that was withdrawn
  (`UpdateOutcomes.WithdrawnReleaseStaysActive`). Everywhere else `committed` means that the candidate is up, unfenced
  and active (`UpdateOutcomes.CommittedMeansReleased`).
- No restore discards a write of the original project, a write of a restored project to a volume that has no recorded
  backup yet, or anything in a volume that the replaced project does not name (`UpdateLoss.OriginalWritesAreKept`,
  `UpdateLoss.UnbackedWritesAreKept`, `UpdateLoss.UnnamedVolumesAreKept`). The second kind is there when a later
  rollback starts the project again (`UpdateFaults.EarlyWriteSurvivesRollback`): that rollback starts it on the contents
  of its stop with exactly these writes on top (`UpdateSafety.RollbackRestoresStoppedContents`).
- The fence is written with `printf > file`. When that write is cut while a release is pending, the half-written marker
  is neither accepted nor removed by any later run, and the journal stays release_pending for good
  (`UpdateRecovery.CutFenceBlocks`, `UpdateRecovery.TornMarkerBlocksRecovery`). A pending update can be carried to its
  end exactly when it is no release or the marker is its own or absent (`UpdateRecovery.RecoveryCanCompleteExactly`).
- The file of an undelivered result is named after the test id as it was sent. A second result with the same file
  overwrites the first, and a redelivery unlinks whatever the file holds by then; `T` and `./T` have one file, a request
  without a test id has the file of the id `undefined`, and the file of `../T` lies outside the directory, where neither
  the status nor a redelivery looks (`SpoolPaths.DotIsSameFile`, `SpoolPaths.MissingIsUndefined`,
  `SpoolPaths.DotDotIsOutside`). If every undelivered result gets a listed file of its own, drainable means acknowledged
  (`RunRoutes.DrainableMeansAcknowledged`); test ids without a slash only share a file when they are equal
  (`RunRoutes.PlainIdsShareNoFile`). Wherever the condition fails, the engine can become drainable with a result that is
  never acknowledged (`SpoolLoss.OverlapCanLoseResult`, `SpoolLoss.StrayIsLost`, `SpoolLoss.LostForGood`).
- Redelivery skips an entry without an execution id or without a token for ever, while the status goes on counting it.
  After one undelivered result of a request without a test id no fence lets the engine become drainable
  (`SpoolLoss.BlockIsReachable`). Behind a fence it can do so exactly when every skipped entry is about to be unlinked
  by a redelivery that read the file before, or can be replaced by the result of a run in flight
  (`SpoolLoss.CanDrainExactly`); with the fence lifted, new results that take the place of the skipped ones free it
  (`SpoolLoss.CanDrainByOverwriting`).
- Pre-release identifiers are compared without case, unlike Semantic Versioning: the key order is the section 11 order
  of the lower-cased versions (`VersionOrder.KeyAgreesWithSection11`, `VersionOrder.LowerCaseAgrees`,
  `VersionOrder.UpperCaseDiffers`).
- Two releases of one owner that are past their read can always remove the fence of another owner, or the file that
  this owner is about to write, whose call then ends without an error and without a fence
  (`UpdateAdmission.DoubleReleaseRemovesOtherFence`, `UpdateAdmission.DoubleReleasePreventsFence`,
  `UpdateAdmission.DoubleReleaseIsReachable`); with one release per owner an unlink removes the asker's own fence
  (`UpdateAdmission.OnlyOwnerUnlinks`).
- Local ids with outer white space escape the duplicate check of batched authoring, because stored ids are not trimmed
  and compared ids are: a later id passes beside an earlier one exactly when its trim is empty or differs from the
  earlier text as stored (`CaseAuthoring.FreshBeside`), so that runs return cases with one trimmed id
  (`CaseAuthoring.OuterSpaceEscapes`); among ids that equal their own trim there is no duplicate.
- When the first traceability answer leaves a row out, the verdict FAIL it gives itself plays no part any more: after an
  acceptable repair the report passes exactly when nothing but the missing rows blocked
  (`RepairAcceptance.ReportAcceptsExactly`, `RepairAcceptance.MissingSilencesVerdict`).
- An audit answer that omits the empty `answer` of an OUT_OF_SCOPE decision passes every check and then throws a
  TypeError at line 98 instead of failing closed (`AuditReadiness.OmittedAnswerThrows`). This happens exactly when the
  answer is clean and some resolved decision has an `answer` that is not a text
  (`AnalysisAudit.CheckedRequirementAnalysisAudit`).
- In the schema validator a `const` that is an array or an object is never met, and `required` and
  `additionalProperties` see names that objects inherit, such as `constructor`
  (`JsonSchemaMeaning.CompoundConstNeverMet`, `JsonSchemaMeaning.RequiredExactly`, `JsonSchemaMeaning.ClosedExactly`).
- The `version` argument of the manifest verifier is not used: a manifest is accepted with any version text
  (`ManifestLaws.AcceptedExactly`).

## Model

| member | source | states |
|---|---|---|
| UpdateInvariant.StepKeepsInv | scripts/atomic_local_update.py:1240-1375 | every step of the updater, a crash, a failure or project traffic keeps the invariant that ties the durable phase to volumes, archives, marker and containers |
| UpdateSafety.RunKeepsInv | scripts/atomic_local_update.py:582-630 | the invariant holds in every state of every benign run |
| UpdateSafety.RollbackRestoresStoppedContents | scripts/atomic_local_update.py:1151-1168 | each time a rollback starts the old project nothing runs, the project starts from the tree from which the replaced project last ran, the marker is absent and every named volume holds what it held when that project was last up, except that of the writes of a restored project to volumes without a recorded backup it holds the last, also after crashes, failed saves and cut copies in snapshots, markers and earlier rollbacks |
| UpdateSafety.RolledBackRunsOldProject | scripts/atomic_local_update.py:1160-1168 | when a journal is recorded as rolled_back by the end of a rollback, the project is up that was replaced, from the tree from which it last ran |
| UpdateSafety.AdmittedOnlyAfterRelease | scripts/atomic_local_update.py:867-897 | in every reachable state an unfenced candidate has a journal in release_pending or committed, or the save of its own committed failed, in a process that survived, since the project that it replaces was last up |
| UpdateSafety.StepKeepsSubject | scripts/atomic_local_update.py:1240-1375 | while the replaced project stays stopped the update that replaces it stays the same, through crashes, rollbacks and a retracted commit |
| UpdateSafety.AcceptedCountsClientWrites | scripts/atomic_local_update.py:619-630 | the history counter is the number of writes that projects accepted from clients so far, those of restored projects included, so the next statements speak about the run itself |
| UpdateSafety.RestoreCopiesStopped | scripts/atomic_local_update.py:929-938 | every restore copies to its own volume, and to no other, a whole archive of what that volume held when the replaced project was last up |
| UpdateLoss.RestoreDiscardsExactly | scripts/atomic_local_update.py:1151-1168 | a restore changes its own volume only, to what it held when the replaced project was last up, and discards exactly the client writes to that volume since then; these are the writes of a restored project after the volume's backup was recorded and of a candidate whose own committed could not be saved |
| UpdateLoss.OriginalWritesAreKept | scripts/atomic_local_update.py:929-938 | no restore discards a write that the original project accepted |
| UpdateLoss.UnbackedWritesAreKept | scripts/atomic_local_update.py:929-938 | no restore discards a write of a restored project to a volume that had no recorded backup |
| UpdateLoss.UnnamedVolumesAreKept | scripts/atomic_local_update.py:929-938 | no restore changes a volume that the replaced project did not name |
| UpdateSafety.AtMostOnePending | scripts/atomic_local_update.py:605-608 | at most one journal is ever pending, so the refusal for multiple interrupted updates is unreachable |
| UpdateSafety.QuietMeansRunning | scripts/atomic_local_update.py:1240-1290 | whenever no journal is pending some project is up |
| UpdateRecovery.RecoveryOutcome | scripts/atomic_local_update.py:609-630 | an uninterrupted recovery stays with the journal it found and ends in committed if that was release_pending and in rolled_back otherwise; then the call returns if it was made to recover only, and otherwise goes on to the downgrade check |
| UpdateRecovery.RecoveryCanCompleteExactly | scripts/atomic_local_update.py:582-630 | wherever a run leaves an update pending, a reconcile-only run can reach its end, committed with its candidate taking traffic and being the active release for release_pending, and rolled back with the old project up from its own tree otherwise, if and only if a pending release has its own marker or none |
| UpdateRecovery.CutFenceBlocks | scripts/atomic_local_update.py:874-886 | every cut of the fence while a release is pending leaves a marker that no command accepts or removes |
| UpdateRecovery.TornMarkerBlocksRecovery | scripts/atomic_local_update.py:874-897 | from there on no run, whatever happens, takes the journal out of release_pending |
| UpdateOutcomes.PhasesMoveOn | scripts/atomic_local_update.py:583-630 | after the first save of a journal each phase is followed only by those that may follow it: release_pending by committed alone, committed by a rollback only when its own save failed, and no journal moves on but that of the running updater, except that a scan abandons one in preparing |
| UpdateOutcomes.RefusalTouchesNothing | scripts/atomic_local_update.py:596-604 | a journal becomes candidate_rejected or abandoned_before_mutation only from preparing, and that step changes nothing else of the installation |
| UpdateOutcomes.RejectionIsRecorded | scripts/atomic_local_update.py:1281-1297 | after a failed image validation or a changed baseline the journal says candidate_rejected, nothing is pending and the project that was up is up unchanged |
| UpdateOutcomes.CommittedMeansReleased | scripts/atomic_local_update.py:1331-1338 | whenever a journal becomes committed its candidate is up from its own tree, unfenced, and the active release |
| UpdateOutcomes.CallsEndSettled | scripts/atomic_local_update.py:1339-1375 | a call that returns by itself leaves nothing pending, or recovery_required in its own journal, or its own release pending behind its own fence with the candidate not admitted |
| UpdateOutcomes.FailureIsHandled | scripts/atomic_local_update.py:1339-1375 | a failing command ends the call at once only when nothing has been stopped, during a recovery, or as the last action of the handler |
| UpdateOutcomes.RecoveryRequiredIsOwn | scripts/atomic_local_update.py:1366-1374 | a journal says recovery_required only after the rollback of its own failed attempt failed |
| UpdateOutcomes.CallGoesForward | scripts/atomic_local_update.py:1240-1375 | within one call the updater never comes back to an earlier part: scan, recovery, preparation, replacement, failure handling |
| UpdateOutcomes.OneAttemptPerCall | scripts/atomic_local_update.py:1240-1375 | after a failed attempt and its rollback the same call never begins another attempt |
| UpdateOutcomes.WithdrawnReleaseStaysActive | scripts/atomic_local_update.py:1334-1366 | when the save of committed fails and the rollback of the handler ends, the old project is up, the journal says rolled_back, and the active-release pointer still names the withdrawn release |
| UpdateProgress.UpdateCanComplete | scripts/atomic_local_update.py:1240-1340 | from every moment of a run with no update pending and no marker in the plan's frontend volume, an uninterrupted update that is no downgrade can end committed, with its candidate up from its own tree, serving, and its release active |
| UpdatePointer.PointerNeverGoesBack | scripts/atomic_local_update.py:541-556 | between any two moments of a run the active release is kept or replaced by one that is no downgrade |
| UpdateFaults.EarlyWriteSurvivesRollback | scripts/atomic_local_update.py:1160-1168 | every write of a restored project to a volume without a recorded backup is there when a later rollback starts the project again |
| UpdateFaults.LateWriteIsOverwritten | scripts/atomic_local_update.py:1160-1168 | every write of a restored project to a volume with a backup is overwritten when the process dies before rolled_back and a later run rolls back |
| UpdateFaults.CanRestoreUnbacked | scripts/atomic_local_update.py:1240-1375 | such a restored project is reachable from every quiet installation |
| UpdateFaults.IgnoredDownBreaksRollback | scripts/atomic_local_update.py:1154-1168 | whenever down fails, is ignored and a project is still up, the old project is started beside it and on whatever it has just written |
| UpdateFaults.IgnoredDownAdmitsCandidate | scripts/atomic_local_update.py:1154-1159 | whenever that project is a candidate with its frontend, it takes traffic while its journal is rolling_back |
| UpdateFaults.CanRollBackCandidate | scripts/atomic_local_update.py:1240-1375 | such a rollback is reachable from every quiet installation |
| UpdateFaults.SurvivedCommitFailureLosesWrite | scripts/atomic_local_update.py:1336-1366 | at every commit a client write can be accepted, the save of committed can then fail, and the handler starts the old project on contents that owe nothing to that write |
| UpdateFaults.CanReachCommit | scripts/atomic_local_update.py:1240-1340 | such a commit is reachable from every quiet installation |
| VersionOrder.KeyIsOrder | scripts/atomic_local_update.py:285-301 | comparison of version keys is a total preorder |
| VersionOrder.KeyTransitive | scripts/atomic_local_update.py:285-301 | the comparison of keys is transitive |
| VersionOrder.NotDowngradeTransitive | scripts/atomic_local_update.py:421-429 | two updates that are no downgrade make one that is no downgrade |
| VersionOrder.ComparableExactly | scripts/atomic_local_update.py:285-301 | a version text is comparable exactly when it is groups of digits with single dots between them, an optional pre-release after a dash and optional build metadata after a plus |
| VersionOrder.NotDowngradeExactly | scripts/atomic_local_update.py:421-429 | for semantic versions an update is let through exactly when the texts are equal or section 11 does not put the lower-cased candidate before the lower-cased active version |
| VersionOrder.ZerosAreFilledIn | scripts/atomic_local_update.py:293-294 | a version number and the same with a further zero have one key, up to four numbers |
| VersionOrder.LaterZerosCount | scripts/atomic_local_update.py:293-294 | from four numbers on the longer one is the later version |
| VersionOrder.RenderReadsBack | scripts/atomic_local_update.py:287-301 | the key of a printed semantic version is its core and pre-release, and build metadata is ignored |
| VersionOrder.KeyAgreesWithSection11 | scripts/atomic_local_update.py:285-301 | for versions with three-number cores the key order is exactly the precedence of section 11 of Semantic Versioning 2.0.0 on lower-cased pre-releases |
| VersionOrder.LowerCaseAgrees | scripts/atomic_local_update.py:296-300 | with lower-case pre-releases the key order is the section 11 precedence |
| VersionOrder.CaseIsIgnored | scripts/atomic_local_update.py:298-298 | versions that differ only in case compare equal |
| VersionOrder.UpperCaseDiffers | scripts/atomic_local_update.py:298-298 | two versions that section 11 orders and that have one key |
| ReleaseManifest.ReleaseManifest | scripts/atomic_local_update.py:265-283 | the printer's loop produces one row per listed file and the hash of the stream of those rows |
| ReleaseManifest.StoredReleaseManifestMatches | scripts/atomic_local_update.py:342-419 | the verifier accepts exactly the manifests whose rows ascend, hold of the tree, hash to the recorded digest and record the inventory up to exempt paths |
| ReleaseManifest.CheckRow | scripts/atomic_local_update.py:361-391 | one row passes exactly when it is well formed, follows its predecessor and describes the file that is there |
| ReleaseManifest.CheckRows | scripts/atomic_local_update.py:357-397 | the loop accepts exactly the lists in which every row passes, and has then rebuilt the stream and the set of recorded paths |
| ManifestLaws.StreamReadsBack | scripts/atomic_local_update.py:278-282 | parsing the hashed stream gives back every path, hash and mode |
| ManifestLaws.StreamInjective | scripts/atomic_local_update.py:278-282 | two lists of rows with the same stream are the same list |
| ManifestLaws.BeforeExactly | scripts/atomic_local_update.py:367-367 | a path comes before another exactly when at the first difference its byte is smaller or it ends there |
| ManifestLaws.EscapesExactly | scripts/atomic_local_update.py:372-374 | a path escapes exactly when it is absolute or one of its parts is two dots |
| ManifestLaws.ProducedIsAccepted | scripts/atomic_local_update.py:342-419 | a manifest is accepted on the unchanged tree it was produced for |
| ManifestLaws.AcceptedExactly | scripts/atomic_local_update.py:342-419 | when no recorded path is left out of the inventory, the accepted manifests of a tree are exactly the produced one, up to the version text |
| ManifestLaws.MatchesExactly | scripts/atomic_local_update.py:401-419 | a manifest still matches a changed tree exactly when every recorded file has its mode and hash, nothing was added, and only exempt paths left the inventory |
| ImageClosure.RequiredServices | scripts/atomic_local_update.py:767-777 | the worklist ends on every graph, cycles included, with the least set that contains the running services and is closed under depends_on |
| ImageClosure.ClosedExactly | scripts/atomic_local_update.py:772-777 | closed means that what a service of the model depends on is there with it |
| ImageClosure.TagOldImages | scripts/atomic_local_update.py:764-793 | tagging succeeds exactly when every stopped dependency has a valid name and its declared image, or without one the image that Compose names after it, has a valid id; then it tags exactly the closure, each service with its own tag of the first 20 characters of the transaction, on the image of its last running record or of that dependency; otherwise it is refused for the first failing dependency in sorted order, with that dependency's error |
| ImageClosure.TagsAreDistinct | scripts/atomic_local_update.py:780-780 | different services never share a rollback tag |
| UpdateAdmission.LeaseTable.BeginLease | engine/src/update-admission.ts:201-217 | a lease is in the table afterwards exactly when both readings of the marker were open, and nothing else changes |
| UpdateAdmission.UninterruptedLease | engine/src/update-admission.ts:201-217 | a call that nothing interrupts does in the protocol what the class does to its table, and is granted exactly when admission is open |
| UpdateAdmission.UninterruptedRequest | engine/src/update-admission.ts:201-217 | the whole life of a lease that nothing interrupts, from the check to the end, leaves the state as it was |
| UpdateAdmission.TableIsExact | engine/src/update-admission.ts:201-217 | in every state of every run the table holds exactly the granted leases and the calls that have registered and not yet looked again |
| UpdateAdmission.RefusedLeaseLeavesNothing | engine/src/update-admission.ts:205-211 | a call that finds the marker when it looks again takes its entry out of the table and grants nothing |
| UpdateAdmission.ReadingExactly | engine/src/update-admission.ts:167-199 | admission is open exactly when no marker file is configured or none is there; a status is drainable exactly when a whole marker is there, no lease is held and the spool is empty |
| UpdateAdmission.ServeRequest | engine/src/update-admission.ts:167-217 | a request that holds a lease while it runs leaves the table as it was, and no status taken meanwhile is drainable |
| UpdateAdmission.DrainedStaysClosed | engine/src/update-admission.ts:131-217 | after a drainable status no lease is granted or held, and a marker is present, until the marker is unlinked, under every interleaving |
| UpdateAdmission.MarkerStays | engine/src/update-admission.ts:219-259 | a marker, half-written or not, stays until it is unlinked, under every interleaving |
| UpdateAdmission.GrantNeedsUnlink | engine/src/update-admission.ts:195-217 | between a marker, whole or half-written, and a later grant somebody unlinked a marker |
| UpdateAdmission.FenceStays | engine/src/update-admission.ts:219-259 | with one release per owner in flight a fence keeps its owner until it is unlinked |
| UpdateAdmission.OnlyOwnerUnlinks | engine/src/update-admission.ts:250-259 | with one release per owner in flight an unlink removes the fence of the owner that asked |
| UpdateAdmission.OwnerChangesThroughAbsent | engine/src/update-admission.ts:219-259 | the owner of a fence changes only by way of no marker |
| UpdateAdmission.UninterruptedFence | engine/src/update-admission.ts:219-259 | a fence that is set and released without interruption leaves the state as it was |
| UpdateAdmission.LateAcquirerLeavesNothing | engine/src/update-admission.ts:219-248 | a call that another one has overtaken ends without touching the marker |
| UpdateAdmission.DoubleReleaseRemovesOtherFence | engine/src/update-admission.ts:250-259 | wherever two releases of one owner are past their read, one of them can remove the fence that any other owner sets after the first |
| UpdateAdmission.DoubleReleasePreventsFence | engine/src/update-admission.ts:219-259 | ... or the file that any owner has created and not yet written, whose call then ends with no marker |
| UpdateAdmission.DoubleReleaseIsReachable | engine/src/update-admission.ts:250-259 | any two calls that look at their own fence in turn are such a pair |
| RunRoutes.OneRunPerKey | engine/src/run-routes.ts:115-126 | at most one run per non-empty execution id is in flight |
| RunRoutes.DuplicateIsInFlight | engine/src/run-routes.ts:115-118 | a request is answered as a duplicate exactly while a run with its id is in flight |
| RunRoutes.StartedExactly | engine/src/run-routes.ts:115-126 | a request is started exactly when it is no such duplicate and no marker is there |
| RunRoutes.KeyExactly | engine/src/run-routes.ts:115-118 | two requests are compared by their trimmed test ids |
| RunRoutes.DrainableMeansAcknowledgedExactly | engine/src/run-routes.ts:191-326 | when the status is drainable every accepted run is closed, and one with a callback has been acknowledged exactly when its result is not in a file outside the directory and was not displaced without a copy of it being acknowledged afterwards |
| RunRoutes.DrainableMeansAcknowledged | engine/src/delivery/terminal-callback.ts:28-74 | if every undelivered result is written to a listed file that neither exists nor is being redelivered, drainable means that every callback has been acknowledged |
| RunRoutes.PlainIdsShareNoFile | engine/src/delivery/terminal-callback.ts:30-30 | with test ids that contain no slash every file is listed, and two runs share a file exactly when they share the id |
| SpoolPaths.DotIsSameFile | engine/src/delivery/terminal-callback.ts:30-30 | a leading ./ changes the id and not the file |
| SpoolPaths.DotDotIsOutside | engine/src/delivery/terminal-callback.ts:30-30 | the file of ../T lies in the parent directory and is not listed |
| SpoolPaths.SlashIsSameFile | engine/src/delivery/terminal-callback.ts:30-30 | a leading slash changes the id and not the file |
| SpoolPaths.RootHasNoParent | engine/src/delivery/terminal-callback.ts:30-30 | in the root directory a leading ../ changes nothing |
| SpoolLoss.OverlapCanLoseResult | engine/src/delivery/terminal-callback.ts:28-74 | whenever a result is written to a file that exists or is being redelivered, what follows can leave the engine drainable with a lost result |
| SpoolLoss.StrayIsLost | engine/src/delivery/terminal-callback.ts:28-74 | whenever a result is written outside the directory, what follows can leave the engine drainable with that result lost |
| SpoolLoss.FailedResultIsLost | engine/src/delivery/terminal-callback.ts:57-74 | a result whose delivery has just failed is lost at once exactly when its file is not listed or its entry is skipped |
| SpoolLoss.OverlapIsReachable | engine/src/delivery/terminal-callback.ts:48-55 | from every reachable state two failed deliveries of any one test id lead to an overlap |
| SpoolLoss.LostForGood | engine/src/delivery/terminal-callback.ts:57-74 | a lost result is never acknowledged, whatever happens next |
| SpoolLoss.CanDrainExactly | engine/src/delivery/terminal-callback.ts:57-74 | behind a fence the engine can become drainable exactly when every listed entry that redelivery skips is about to be unlinked or can be replaced by the result of a run in flight |
| SpoolLoss.CanDrainByOverwriting | engine/src/delivery/terminal-callback.ts:48-74 | from every reachable state the engine can become drainable, with results of new runs in place of the skipped entries |
| SpoolLoss.BlockIsReachable | engine/src/delivery/terminal-callback.ts:64-64 | from every reachable state one undelivered result without a test id leads to a fence behind which the engine never becomes drainable |
| CaseContract.CaseProposalContractIssues | engine/src/case-proposal-contract.ts:2-20 | a code is reported exactly when its condition holds, without repetition, and none is reported exactly when the contract is met |
| CaseAuthoring.CaseAuthoringBatches | engine/src/case-authoring-batching.ts:8-16 | consecutive non-empty slices that join to the scenarios, all of the batch size but the last, in the least number |
| CaseAuthoring.SplitCaseAuthoringBatch | engine/src/case-authoring-batching.ts:18-22 | two non-empty halves that join to the batch and differ by at most one in size, the first the larger, exactly when it has at least two scenarios |
| TextSort.SortedEqualIsSameMultiset | engine/src/case-authoring-batching.ts:74-76 | the comparison of sorted references is equality of multisets |
| CaseAuthoring.BatchIsValid | engine/src/case-authoring-batching.ts:69-86 | a batch passes exactly when every case meets its contract, cites its scenario's criteria as a multiset and has a new id |
| CaseAuthoring.AuthorBatch | engine/src/case-authoring-batching.ts:59-108 | a visit makes two calls exactly when the first answer breaks the contract, and its result is what the last answer leads to |
| CaseAuthoring.GenerateCaseProposals | engine/src/case-authoring-batching.ts:30-114 | for every provider: it ends within 4n - 2k calls; on success the scopes are the scenarios in order, case i meets its contract and cites scenario i, and the cases are, in order, items of complete answers of the provider with nothing changed but the category, trimmed and in upper case; it stops only for the reason its last answer gives |
| CaseAuthoring.RunBatches | engine/src/case-authoring-batching.ts:59-108 | the loop that splits pending batches in place computes the recursive run over the batches |
| CaseAuthoring.AuthorKeepsPromise | engine/src/case-authoring-batching.ts:59-112 | for every provider that run keeps order, contract and references, names the reason of its last answer when it stops, and makes two calls at most for each visit |
| CaseAuthoring.AuthorIsSourced | engine/src/case-authoring-batching.ts:49-108 | every returned case comes from an item of a complete answer, later cases from later items, and differs from it in the category alone, which is the trimmed one in upper case |
| TextLaws.TrimExactly | engine/src/generation-contracts.ts:125-125 | trimming gives the one part of a text without outer white space that has only white space around it |
| TextLaws.UpperExactly | engine/src/generation-contracts.ts:125-125 | upper case is the text with every small letter replaced by the capital of the same place in the alphabet |
| TextLaws.LowerExactly | scripts/atomic_local_update.py:298-298 | lower case is the text with every capital replaced by the small letter of the same place in the alphabet |
| CaseAuthoring.FreshBeside | engine/src/case-authoring-batching.ts:78-82 | a later id passes beside an earlier one exactly when its trim is empty or is not the earlier text as stored |
| CaseAuthoring.OuterSpaceEscapes | engine/src/case-authoring-batching.ts:78-82 | any two cases of two batches whose trimmed ids are equal are both returned when the first id has white space around it |
| SemanticReview.CheckedSemanticReview | engine/src/generation-review.ts:73-220 | pushed findings, counters and in-place reconciliation compute the specified report |
| SemanticReview.MergeTraceabilityRepair | engine/src/generation-review.ts:240-273 | the Map updates compute the specified merge of the two reports |
| ReviewSoundness.LookupPutAll | engine/src/generation-review.ts:249-254 | after the merge a key holds a row of the repair if one has it and the primary row otherwise |
| ReviewSoundness.ReportGroundsEveryCriterion | engine/src/generation-review.ts:73-273 | for every answer of the reviewing model and every repair, a report that is not FAIL backs every criterion by literal quotes or accepted assumptions |
| ReviewSoundness.ReportVerifiesEveryCriterion | engine/src/generation-review.ts:142-153 | such a case report names existing steps for every criterion and covers it unless a planned scenario narrows the case |
| ReviewSoundness.ReportVerifiesScenario | engine/src/generation-review.ts:154-172 | such a report has exactly one row for the planned scenario, COVERED by existing steps |
| ReviewSoundness.ReportPreservesEveryFact | engine/src/generation-review.ts:173-196 | such a story report has, for every required source fact, a row COVERED by criteria of the proposal that carries the source and the literal quote of a fact with that id, the fact's own when ids are unique |
| ReviewAcceptance.ReviewAcceptsExactly | engine/src/generation-review.ts:73-220 | a review is not FAIL exactly when the answer is acceptable, stated on the answer alone |
| ReviewAcceptance.ReviewVerdictExactly | engine/src/generation-review.ts:200-220 | a review is FAIL exactly when the answer is not acceptable, PASS exactly when it is, does not ask for review itself, states dismissed omissions only and calls no criterion an inference, and WARN otherwise |
| ReviewMeaning.AcceptableExactly | engine/src/generation-review.ts:73-217 | which answers are acceptable, in plain terms: one readable row per criterion that is asked for, with literal quotes and accepted assumptions of the kind its status needs, one covered row for the scenario, rows with existing steps, a row with the literal quote for each fact, no foreign rows, and findings that are understood and do not block |
| ReviewMeaning.PassesPlainlyExactly | engine/src/generation-review.ts:73-217 | the same for what is left after a repair sets missing rows right |
| ReviewMeaning.CanonicalExactly | engine/src/generation-review.ts:31-38 | a name resolves to a criterion exactly when it is that id as it stands, or no id is and it is the only one that is equal up to leading zeros of a final number |
| ReviewMeaning.StatedFindingExactly | engine/src/generation-review.ts:89-111 | a finding that is not understood is reported as invalid, a dismissed omission is left out, and any other one is reported with its clipped message, about the criterion it names, as a notice when it is about the parent criterion |
| ReviewMeaning.ConflictExactly | engine/src/generation-review.ts:198-206 | the report marks a conflict exactly when the answer states a blocking finding about the scenario that it also calls covered |
| ReviewMeaning.GroundingRowShows | engine/src/generation-review.ts:116-140 | the report shows for a criterion the status, assumptions and clipped reason of its row and, unless it is UNSUPPORTED, exactly its real quotes, trimmed, in order |
| ReviewMeaning.VerbatimExactly | engine/src/generation-review.ts:125-128 | a quote counts exactly when its trim has three characters and a text of the named source contains it |
| RepairAcceptance.ReportAcceptsExactly | engine/src/generation-review.ts:73-273 | a traceability report is not FAIL exactly when its one answer is acceptable, or the answer left something out, the repair is acceptable and nothing blocked the first answer but missing rows of criteria and, when every fact that had a row was covered, findings about facts |
| RepairAcceptance.ReportVerdictExactly | engine/src/generation-review.ts:200-273 | a traceability report after the merge is PASS exactly when nothing of the first answer is left over, not even a notice, and the repair is quiet, FAIL exactly when it is not acceptable, and WARN otherwise |
| ReviewMeaning.MendsExactly | engine/src/generation-review.ts:227-262 | what a repair sets right, in plain terms: criteria without a readable row, and findings about facts when some fact has no proper row and every other is covered |
| ReviewMeaning.RepairAsksExactly | engine/src/generation-review.ts:227-238 | the repair is asked for the criteria without a readable row and the facts without a proper row, and for nothing else |
| RepairAcceptance.MissingSilencesVerdict | engine/src/generation-review.ts:207-217 | an answer that left something out adds no finding for the verdict it gives itself |
| RepairAcceptance.DroppedExactly | engine/src/generation-review.ts:240-271 | an acceptable repair drops exactly the findings that the first answer alone determines: missing rows of missing criteria, and findings about facts when these can be settled |
| AnalysisAudit.CheckedRequirementAnalysisAudit | engine/src/generation-analysis-review.ts:46-128 | rejected exactly when some decision is unclean, with the code of the first failing check; it throws exactly when a clean answer has a resolved decision without a text; otherwise the updated analysis is the specified one |
| AnalysisAudit.ReadSources | engine/src/generation-analysis-review.ts:54-61 | the loops build the text of every source and the scope decisions of the user, later sources replacing earlier ones |
| AnalysisAudit.QuestionFaultExactly | engine/src/generation-analysis-review.ts:69-84 | the checks of a question pass exactly when the decision is settled on evidence, left open, or closed by a scope decision |
| AnalysisAudit.AssumptionFaultExactly | engine/src/generation-analysis-review.ts:86-95 | the checks of an assumption pass exactly when it is weighed with real evidence |
| AuditOutcome.QuestionCodeExactly | engine/src/generation-analysis-review.ts:69-84 | the code of a question is the first, in the order of the checks, whose fault the decision has |
| AuditOutcome.AssumptionCodeExactly | engine/src/generation-analysis-review.ts:86-95 | the code of an assumption is the first, in the order of the checks, whose fault the decision has |
| AuditOutcome.EvidenceExactly | engine/src/generation-analysis-review.ts:62-66 | evidence is valid exactly when it is a list of passages, each of three characters at least and literally in the source it names |
| AuditOutcome.BlankExactly | engine/src/generation-analysis-review.ts:47-47 | a text is blank exactly when it has white space only |
| AuditOutcome.SourceTextsExactly | engine/src/generation-analysis-review.ts:54-54 | the texts of an id are those of the last source that has it |
| AuditOutcome.BoundariesExactly | engine/src/generation-analysis-review.ts:55-61 | a boundary is the trimmed question of the last answer of the user with that id that puts it out of scope |
| AuditOutcome.QuestionsExactly | engine/src/generation-analysis-review.ts:47-47 | the questions that must be decided are those of the analysis that are not blank, trimmed, in order |
| AuditReadiness.AcceptedAuditPartitions | engine/src/generation-analysis-review.ts:97-124 | an accepted audit splits questions into resolved and open, and assumptions into retained and removed, in order and without loss |
| AuditOutcome.AcceptedExactly | engine/src/generation-analysis-review.ts:97-126 | decision by decision: each resolved question has the trimmed answer, evidence and boundary of its decision, each open one its question, each retained assumption is the original one, each removed one carries its decision, all in order, after what was resolved before |
| AuditReadiness.InterleavingConserves | engine/src/generation-analysis-review.ts:97-107 | such a split keeps the multiset of what was split |
| AuditReadiness.ReadyExactly | engine/src/generation-analysis-review.ts:97-125 | READY exactly when every question was answered with a literal quote or closed by a matching user decision and every assumption was quoted or dismissed with a reason |
| AuditReadiness.BlockedExactly | engine/src/generation-analysis-review.ts:102-125 | BLOCKED exactly when a critical assumption was not closed |
| AuditReadiness.OmittedAnswerThrows | engine/src/generation-analysis-review.ts:97-98 | a clean answer for which the call throws |
| JsonSchema.ValidateJsonSchema | engine/src/chatbot-evaluator-utils.ts:198-257 | the capped recursion returns exactly the first 25 of all errors, in order |
| JsonSchema.SomeAccepts | engine/src/chatbot-evaluator-utils.ts:254-254 | the early exit finds an accepting alternative exactly when one exists |
| JsonSchemaMeaning.ErrorsExactly | engine/src/chatbot-evaluator-utils.ts:202-257 | there is no error exactly when the boolean recursion over the keywords accepts |
| JsonSchemaMeaning.Validate | engine/src/chatbot-evaluator-utils.ts:202-256 | valid exactly when the boolean recursion accepts, with at most 25 errors, a prefix of all errors |
| JsonSchemaMeaning.DepthInvisible | engine/src/chatbot-evaluator-utils.ts:198-206 | the depth limit never fires for schemas of nesting height at most 20 |
| JsonSchemaMeaning.TowerAccepted | engine/src/chatbot-evaluator-utils.ts:206-206 | the bound is tight: nested schemas that mean "anything" are accepted exactly up to level 20 |
| JsonSchemaMeaning.CompoundConstNeverMet | engine/src/chatbot-evaluator-utils.ts:217-217 | a const that is an array or an object is met by no value |
| JsonSchemaMeaning.RequiredExactly | engine/src/chatbot-evaluator-utils.ts:243-243 | a required name is found exactly when it is an own or an inherited name |
| JsonSchemaMeaning.ClosedExactly | engine/src/chatbot-evaluator-utils.ts:248-248 | a closed object is accepted exactly when every own name is declared or inherited |
| JsonKeywords.Sections | engine/src/chatbot-evaluator-utils.ts:217-255 | the errors of a schema are those of its own keywords, then those of the object keywords, allOf, anyOf and oneOf |
| JsonKeywords.ConstExactly | engine/src/chatbot-evaluator-utils.ts:217-217 | const alone is met exactly by the same value, and only by a scalar |
| JsonKeywords.EnumExactly | engine/src/chatbot-evaluator-utils.ts:218-218 | enum alone is met exactly by a scalar that is one of its values |
| JsonKeywords.TypesExactly | engine/src/chatbot-evaluator-utils.ts:207-220 | type alone is met exactly by the values of a named class: an integer is a number without a fraction, an object is no array and not null |
| JsonKeywords.LengthExactly | engine/src/chatbot-evaluator-utils.ts:222-223 | minLength and maxLength bound the length of texts and nothing else |
| JsonKeywords.PatternExactly | engine/src/chatbot-evaluator-utils.ts:224-224 | pattern reports a text that does not match, or an invalid pattern, and nothing else |
| JsonKeywords.MinimumExactly | engine/src/chatbot-evaluator-utils.ts:227-229 | minimum and exclusiveMinimum bound numbers from below, the second strictly, and nothing else |
| JsonKeywords.MaximumExactly | engine/src/chatbot-evaluator-utils.ts:228-230 | maximum and exclusiveMaximum bound numbers from above, the second strictly, and nothing else |
| JsonKeywords.ItemCountExactly | engine/src/chatbot-evaluator-utils.ts:233-234 | minItems and maxItems bound the number of items of arrays and nothing else |
| JsonKeywords.UniqueExactly | engine/src/chatbot-evaluator-utils.ts:235-235 | uniqueItems is met exactly by arrays whose items have different texts |
| JsonKeywords.ItemsReport | engine/src/chatbot-evaluator-utils.ts:236-239 | items reports exactly the errors of each item at its position, one level deeper |
| JsonKeywords.PropertyReports | engine/src/chatbot-evaluator-utils.ts:244-247 | a property schema reports exactly the errors of the value that the object has under that name, one level deeper |
| JsonKeywords.RequiredReports | engine/src/chatbot-evaluator-utils.ts:243-243 | a required name is reported exactly when the object has it neither itself nor by inheritance |
| JsonKeywords.AllOfReports | engine/src/chatbot-evaluator-utils.ts:250-253 | allOf reports exactly the errors of its schemas, one level deeper |
| JsonKeywords.AnyOfReports | engine/src/chatbot-evaluator-utils.ts:254-254 | anyOf is reported exactly when no alternative accepts |
| JsonKeywords.OneOfReports | engine/src/chatbot-evaluator-utils.ts:255-255 | oneOf is reported exactly unless one alternative alone accepts |
| JsonKeywords.DepthReports | engine/src/chatbot-evaluator-utils.ts:205-206 | what is no schema is reported as such, and below level 20 the depth is |
| SourcePartition.FitSize | engine/src/generation-context.ts:98-99 | the halving loop ends with a part that fits or is one character, and was shortened only because a part twice as long did not fit |
| SourcePartition.ChunkSize | engine/src/generation-context.ts:96-96 | the size to begin with is half of the limit less 512, rounded down, and at least 128 |
| SourcePartition.Partition | engine/src/generation-context.ts:92-104 | the loop ends, never raises the limit error, and cuts the text in a chain of parts of the right size that reaches its end |
| PartitionLaws.PartsRebuildText | engine/src/generation-context.ts:97-104 | the text can be rebuilt from the parts alone, so no character is lost, repeated or reordered |
| PartitionLaws.WindowInSomePart | engine/src/generation-context.ts:101-103 | every window at most one longer than the smallest overlap lies whole in some part |
| WilsonInterval.WilsonExactly | engine/src/calibrate-internal-scores.ts:42-49 | the unclamped interval is exactly the set of rates whose squared distance to the observed one is within z squared variances |
| WilsonInterval.WilsonInUnit | engine/src/calibrate-internal-scores.ts:42-49 | the unclamped interval lies in the unit interval and contains the observed agreement |
| Calibration.GroupScores | engine/src/calibrate-internal-scores.ts:17-37 | the loop stops at the first unreviewed or repeated row, and otherwise counts rows and agreements per key in order of first appearance |
| Calibration.CalibrateInternalScores | engine/src/calibrate-internal-scores.ts:17-52 | bins are reported exactly when every row is usable, one per key, with an interval that needs no clamping |
| Calibration.TotalsAddUp | engine/src/calibrate-internal-scores.ts:31-36 | the totals of the bins add up to the number of rows |
| Calibration.ScoreInItsBin | engine/src/calibrate-internal-scores.ts:31-31 | every score lies in its bin of ten, with 100 in the last one |
| Calibration.SameBinExactly | engine/src/calibrate-internal-scores.ts:31-32 | two rows share a bin exactly when source, model and version agree and no multiple of ten from 10 to 90 separates their scores |
| VideoCleanup.QuotaHolds | engine/src/video-evidence.ts:64-80 | after a cleanup the finished temporary recordings fit the quota |
| VideoCleanup.NewestSurvive | engine/src/video-evidence.ts:73-79 | no evicted recording is newer than a survivor |
| VideoCleanup.EvictionWasNeeded | engine/src/video-evidence.ts:74-79 | with the newest evicted recording the quota would have been exceeded |
| VideoCleanup.RemovedExactly | engine/src/video-evidence.ts:64-80 | a cleanup removes exactly abandoned, expired and evicted recordings, never an active or a finished regular one |
| VideoEvidence.Sweep | engine/src/video-evidence.ts:65-72 | the first loop finds the doomed recordings and the candidates for eviction, in order |
| VideoEvidence.Evict | engine/src/video-evidence.ts:73-79 | the second loop evicts the least number of oldest recordings |
| VideoEvidence.VideoEvidenceStore.Cleanup | engine/src/video-evidence.ts:64-80 | the manifests become what the cleanup function says and the storage bound is kept |
| VideoEvidence.VideoEvidenceStore.Begin | engine/src/video-evidence.ts:19-34 | it fails exactly for the disk reserve or the regular quota, after a cleanup, and otherwise adds one active recording |
| VideoEvidence.VideoEvidenceStore.Finish | engine/src/video-evidence.ts:36-55 | an unusable recording is removed, a usable one is finished and may at once be evicted, and the reference tells which |
| VideoEvidence.VideoEvidenceStore.DeleteTemporary | engine/src/video-evidence.ts:82-91 | a malformed or active id is refused, and only a finished temporary recording is removed |
| VideoEvidence.RegularStorageBound | engine/src/video-evidence.ts:19-55 | regular storage that started empty stays below the quota plus 128 MiB for each recording ever active at once |

## Left out

- Docker, Compose, subprocess, fsync, lock files and HTTP: a command is an abstract step that succeeds, fails or is cut.
- The validation-only mode of the updater, inventory checks of helper images, health probes and the release filters: the
  file listing of a release is an input.
- The contents of a volume are one abstract value and a marker; a copy of a volume is whole or torn.
- SHA-256 is a function with 32-byte results; that equal hashes mean equal contents is not assumed.
- Paths are their UTF-8 bytes; file names that are not valid Unicode are not modelled.
- Regular expressions, `JSON.stringify` and the square root are functions from outside; numbers are exact reals or
  integers, not floating point.
- Number formatting of final id segments with more than 21 digits in `canonicalCriterionId`.
- `reviewGeneratedProposals` beyond one traceability report: the contract retry only replaces the first answer by another
  one, which the statements cover because they hold for every answer; the merged quality findings and source references
  would only add easy members.
- `requiredStoryCoverageFacts` and `explicitScopeBoundaries`: the required facts and scope boundaries are inputs.
- Terminal delivery: that writing the file of a failed delivery succeeds is assumed, also in another directory. A test id
  is a text or missing, not another JSON value, and paths are those of POSIX without symbolic links.
- Text is a sequence of Unicode scalar values and changes of case are those of ASCII, while JavaScript counts and sorts
  by UTF-16 units and folds all of Unicode: the limits of 80 characters for ids, 3 for quotes and 2000 for clipped
  texts, `minLength`, `maxLength` and the order of references differ for characters outside the basic plane. Digits of
  a version are those of ASCII, while `\d` and `int` of Python take all of Unicode.
- The rewriting of structured step data into text (`generation-contracts.ts` 126-134) and the copy of all decisions kept
  under `analysis_consistency_review`: steps have no data field, and the copy repeats the answer.
- Texts of findings and error messages are enumerations; a text of the model that equals a fixed message is that message.
- VideoEvidence.VideoEvidenceStore.Finish: it is called for a recording that `begin` returned and that is still active;
  the order of the videos of one recording is not modelled.
- UpdateAdmission.LeaseTable.BeginLease: ids are fresh, as random UUIDs are.
- Authentication, access control, redaction, rate limiting, suites, the web frontend and the database.
