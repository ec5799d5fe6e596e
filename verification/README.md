# Verification of SoloRing's durable protocols

A Dafny model of four cores of SoloRing, with proofs of what they promise and,
where a promise is not kept, a concrete run that breaks it and the exact condition
under which it holds.

* **The worker protocol** (`Ownership`, `OwnershipLaws`, `OwnershipStore`, `Rediscovery`,
  `Protocol*`, `Leases`): one lease row, any number of workers and generations, fenced
  transactions, one-shot submission to an executor, rediscovery, adoption after a crash
  or a stale takeover, cancellation and publication. `OwnershipStore.Store` changes the rows in place, each
  method with the guarantee that `OwnershipLaws` proves of that transaction;
  `Protocol` interleaves one transaction, one remote call or one plain read at a time,
  so a crash, a takeover or a user's cancel may fall between any two of them. The
  executor may answer anything, except that it queues at most one prompt per POST and
  shows markers as they were submitted.
* **The migration chain** (`NarrativeUniqueness`, `NarrativeOrder`, `SchemaVersions`,
  `MigrationChain`): heads 0006 to 0012 and the 0015 step, DDL that is not
  transactional, SQL's three-valued comparison, NULL-distinct unique indexes, and the
  ordering primitives that the 0007 index exists for.
* **The certifying run** (`CertifyingRun`, `CoverageLedger`): the fail-fast driver,
  its two ledger builders and the packager's disposition.
* **Graphs, parsers and validators**: the prompt graph from template to submission
  (`FrameChain`, `ControlStreams`, `ControlProjection`, `PromptGraph`), the proof maps
  (`ProofMap`, `RowPatterns`, `ProofOwners`, `ProofUniverse`, `ProofTable`, `OwnerPatterns`), `ArchiveFidelity` and
  `PngWriter`, with `Strings`, `Utf8` and `Decimals`.

Code that updates rows, lists or buffers in place is a class or a method with loops,
proved equal to a specification function or predicate; lemmas then say what that
specification means. A `Behaviour` is the sequence of states of any run from the empty
store; `BehaviourIsRun` and `RunIsBehaviour` say that it and the actions of the run
describe the same thing.

## Where the code and its documentation disagree

* "uncertain: POST permanently forbidden" (migration 0004). A worker that stalls
  between its last authority proof and its POST still posts after a successor has
  written `uncertain` (`PostAfterUncertain`). No POST follows exactly when no drive
  stands at that point (`UncertainForbidsPosts`); at most one POST is made in any case.
* "soft cancel: never hard-cancel" (migration 0005). `decide_cancellation` looks at the
  executor's state only. After the mark a queue deletion or a hard cancel can follow
  exactly while the row is active, or a drive is already past its authority proof
  (`DestroyAfterSoftCancel`); hard cancels need a targeted, retry-safe capability
  (`NoHardCancelWithoutCapability`). "Never publish" and "one-way" do hold.
* A remotely cancelled job seen by `reconcile_cancellation` without a soft mark makes
  the drive report "cancelled" and write nothing (`UnrecordedReport`,
  `CancelledButActive`); the row stays active until another worker takes the lease
  (`StrandedUntilTakeover`).
* A generation recorded as cancelled by soft cancel may hold Takes published before
  the mark by a worker that died while importing (`CancelledWithTake`); it holds one
  exactly if the row had one when the mark was written (`SoftCancelledTakesExactly`).
* The 0010, 0011 and 0015 preflights do not count a document whose version compares
  as NULL (`InvisibleTo0010`); 0009 refuses every such snapshot.
* The original ledger builder passes a multi-part cell with one recorded part
  (`LedgersDiffer`); on any run it passes one that the hardened builder does not
  exactly when something passing is filed under the cell and some part has no record
  or no file (`LedgersDifferExactly`).
* An obligation whose key domain is `CMD` does not survive the proof-map parser
  (`CommandDomainBreaksRoundTrip`); a stale test parameter passes the M15 and M16
  owner rule, and M15's guards refuse collected tests that M10F accepts
  (`StaleParameterPasses`, `GuardsRefuseCollected`); stripping a listed path loses
  outer blanks of an ASCII path (`StrippedRoundTrip`).

## Model

| member | source | states |
|---|---|---|
| OwnershipLaws.LeaseExcludes | server/soloring/worker/ownership.py:141-202 | which of the four answers is given when, and the new lease; who takes it keeps each contender off for exactly that contender's TTL, who is refused changed nothing |
| OwnershipLaws.RefreshDecides | server/soloring/worker/ownership.py:204-226 | retained exactly for the holder, and starts a new window; lost means no write of this worker changes anything |
| OwnershipLaws.AuthorityIsEffective | server/soloring/worker/ownership.py:228-270 | OK exactly when every fenced status write would commit right after; the holder's lease is renewed whatever the answer |
| OwnershipStore.Store.ClaimNextGeneration | server/soloring/worker/ownership.py:358-432 | the claim takes an oldest queued, never-submitted row; it fails only without the lease or such a row |
| OwnershipLaws.TransitionIsFenced | server/soloring/worker/ownership.py:470-502 | a status write changes one column of one owned active row or nothing, and a terminal status is final against every later history |
| OwnershipLaws.ProgressBeats | server/soloring/worker/ownership.py:434-467 | a progress write renews the heartbeat of one owned active row, or changes nothing |
| OwnershipLaws.RequeueRestoresClaim | server/soloring/worker/ownership.py:553-611 | which answer when; what goes back never had an attempt, is claimable by whoever holds the lease, and cannot go back twice |
| OwnershipLaws.ClaimWrites | server/soloring/worker/ownership.py:358-432 | which row is claimable, and the row a claim writes |
| OwnershipLaws.AdoptionHandsOver | server/soloring/worker/ownership.py:613-652 | which answer when; the adopter can write, no other worker can even with the lease, every other column and row is equal |
| OwnershipLaws.ArtifactPrecedesPermit | server/soloring/worker/submission_state.py:58-99 | stored exactly before the permit and without a job; the permit is then available for exactly these bytes, and ends the time in which they can be replaced |
| OwnershipLaws.PermitIsHandedOutOnce | server/soloring/worker/submission_state.py:101-143 | MAY_POST exactly for the authorized, stored, never submitted attempt, and no later history yields it again; a refusal changes nothing |
| OwnershipLaws.ConfirmationIsFinal | server/soloring/worker/submission_state.py:145-182 | exactly from submission_possible; state, job and handle change together, and no later history changes them |
| OwnershipLaws.UncertaintyIsFinal | server/soloring/worker/submission_state.py:184-218 | uncertain is reached from submission_possible only, and no later history confirms the attempt |
| OwnershipLaws.SelectionIsOneWay | server/soloring/worker/submission_state.py:220-265 | no history removes the mark, its time or the intent behind it; selecting twice is selecting once |
| OwnershipLaws.CancelReplyHolds | server/soloring/api/generations.py:206-331 | "cancelled" exactly for a queued row or one in preparation without job and attempt state, and then nobody is ever permitted to POST; "requested" is never forgotten, a refusal changes nothing |
| OwnershipLaws.PublicationConverges | server/soloring/generation/importer.py:229-345 | a Take is minted exactly if the fence holds and there is none; it then exists in every later state |
| OwnershipLaws.FinalTakeIsUnique | server/soloring/generation/importer.py:229-345 | and no replay by anybody mints it again |
| Ownership.OwnedWritesAreFenced | scripts/probe_begin_immediate.py:67-106 | every committed worker write is by the lease holder, on one active row, keeps the CHECKs, and, but for requeue and adoption, is by the row's owner |
| Rediscovery.MergeEvidence | server/soloring/executors/comfy/executor.py:35-78 | the merge answers what the evidence means, said without the order of its records |
| Rediscovery.AnswerIsUnique | server/soloring/executors/comfy/executor.py:35-78 | the evidence admits one answer |
| Rediscovery.TruthfulEvidenceNeverConflicts | server/soloring/executors/comfy/executor.py:35-78 | truthful markers and one accepted prompt give "absent" or exactly that prompt |
| Rediscovery.OmittedMarkerConflicts | server/soloring/executors/comfy/executor.py:52-62 | any evidence in which a prompt of ours shows another marker or none is an invariant failure, whatever else was seen |
| Leases.Settings.DeriveStorageAndValidateTiming | server/soloring/settings.py:115-145 | missing directories are derived, explicit ones kept; loading succeeds exactly when both cadences tolerate two missed beats, and the error names the right one |
| Leases.ToleranceIsExact | server/soloring/settings.py:126-144 | n consecutive missed beats are tolerated, in any history, exactly when the threshold is n + 1 intervals |
| Leases.LoadedSettingsHoldTheLease | server/soloring/worker/ownership.py:180-202 | a contender is held off through two missed refreshes exactly when the settings load |
| Leases.StallIsSafeExactly | scripts/probe_begin_immediate.py:109-155 | over all split runs, a write this long after the checked heartbeat never strays exactly when the stall is within the least TTL of the contenders |
| Leases.LongStallStrays | scripts/probe_begin_immediate.py:109-155 | for every longer stall, the run in which the former holder writes; the fenced form refuses it |
| Leases.StraysExactly | scripts/probe_begin_immediate.py:67-106 | a write of a split run is a stray exactly when another worker took the lease over between the writer's last successful check and the write, and the writer did not take it back |
| Leases.RunStraysExactly | scripts/probe_begin_immediate.py:67-106 | a whole run commits a stray write exactly when it contains such check, takeover and write |
| ProtocolSteps.StepKeeps | server/soloring/worker/comfy_pipeline.py:309-560 | every action of every worker, user and executor keeps the protocol invariant |
| ProtocolSteps.RequeueNeverFires | server/soloring/worker/recovery.py:88-104 | in the protocol no row is ever requeued: a preparing row always has its attempt |
| ProtocolSteps.ClaimKeeps | server/soloring/worker/ownership.py:358-432 | a claim never meets a running drive of the same row |
| ProtocolSteps.AdoptKeeps | server/soloring/worker/recovery.py:106-115 | neither does an adoption, and it finds the attempt it needs |
| ProtocolTheorems.OneShotSubmission | server/alembic/versions/0004_comfy_submission_state.py:9-21 | in every behaviour at most one POST per generation, none before the permit, exactly one once confirmed; the CHECKs hold |
| ProtocolTheorems.ConfirmedNamesTheOnePrompt | server/alembic/versions/0003_generation_attempt_id.py:7-12 | a confirmed row names the one prompt the executor accepted for it and its attempt |
| ProtocolTheorems.CancellationIsTargeted | server/soloring/worker/comfy_cancellation.py:126-151 | a destructive call only names the generation's own persisted prompt |
| ProtocolTheorems.ReportedStatusIsRecorded | server/soloring/worker/comfy_pipeline.py:341-383 | a status a drive reports is the row's terminal status, for ever after; which one is decided as the ProtocolOutcomes rows say |
| ProtocolOutcomes.ObservedEndDecides | server/soloring/worker/comfy_pipeline.py:1156-1173 | an observed end of an unmarked owned job is recorded and reported as failed exactly if it failed, as cancelled exactly if it was cancelled, and otherwise leads to the import |
| ProtocolOutcomes.LossIsInterruption | server/soloring/worker/comfy_pipeline.py:1072-1112 | a lost job and an outage past its grace are recorded and reported as interrupted; a shorter outage is watched on |
| ProtocolOutcomes.VanishedIsInterruption | server/soloring/worker/comfy_pipeline.py:1175-1190 | so are a vanished history and an outage while it is fetched |
| ProtocolOutcomes.FaultReports | server/soloring/worker/comfy_pipeline.py:350-379 | the error envelope: interrupted exactly on an unavailable remote, otherwise failed |
| ProtocolOutcomes.UnentitledEnds | server/soloring/worker/comfy_pipeline.py:350-379 | without lease, ownership or an active row nothing is recorded and nothing reported |
| ProtocolOutcomes.ProgressIsRecorded | server/soloring/worker/comfy_pipeline.py:1113-1152 | progress renews the heartbeat and records running on an owned active row, and changes nothing else |
| ProtocolOutcomes.ReconcilingMoves | server/soloring/worker/comfy_cancellation.py:78-151 | under an intent: pending is deleted, running interrupted exactly with a targeted and retry-safe capability, anything else soft-cancelled |
| ProtocolOutcomes.CallMoves | server/soloring/worker/comfy_cancellation.py:154-200 | after the destructive call: accepted records cancelled, too late looks once more, ambiguous goes round |
| ProtocolOutcomes.SoftCancelDecides | server/soloring/worker/comfy_cancellation.py:84-101 | however the job of a marked row ends, cancelled is recorded and reported |
| ProtocolOutcomes.MarkingMoves | server/soloring/worker/comfy_submission.py:119-166 | only its own permit leads a drive to the POST; spent, it rediscovers; out of order, it fails |
| ProtocolOutcomes.PostDecides | server/soloring/worker/comfy_submission.py:203-227 | what becomes of the POST under kept authority: rejected fails the generation, accepted makes the row name the queued prompt, ambiguous with nothing found in time ends as uncertain and interrupted |
| ProtocolOutcomes.RediscoveringMoves | server/soloring/worker/comfy_submission.py:278-325 | adopt confirms, absent waits until the grace expires, duplicate and conflicting evidence fail |
| ProtocolOutcomes.GivingUpReports | server/soloring/worker/comfy_submission.py:327-348 | giving up records uncertain, then interrupted, and reports it |
| ProtocolOutcomes.StagingMoves | server/soloring/generation/importer.py:103-138 | publication starts exactly when the staged keys are the declared ones, each once |
| ProtocolOutcomes.PublishingMoves | server/soloring/generation/importer.py:229-303 | output after output: minted if new, passed over if there, stopped without the fence; success after the last |
| ProtocolOutcomes.LossUnderIntent | server/soloring/worker/comfy_cancellation.py:106-114 | while a cancel is requested a lost job and an outage are recorded and reported as interrupted |
| ProtocolOutcomes.AdoptionStarts | server/soloring/worker/recovery.py:80-115 | an adoption starts a drive of the attempt it finds, on exactly the active rows of other workers |
| ProtocolOutcomes.DriveWaits | server/soloring/worker/comfy_pipeline.py:309-560 | a drive moves only on an answer to what it asked |
| ProtocolPublication.PublishedExactly | server/soloring/generation/importer.py:229-345 | through crash, adoption and replay: one publication per Take, Takes only of declared outputs, and a generation that succeeded or was reported so has one publication for each of them |
| ProtocolPublication.SoftCancelKeepsTakes | server/soloring/worker/comfy_cancellation.py:84-101 | from the mark on the set of Takes never changes |
| ProtocolPublication.SoftCancelledTakesExactly | server/soloring/worker/comfy_cancellation.py:1-8 | a soft-cancelled generation holds a Take exactly if it held one in the state in which the mark was selected |
| ProtocolTheorems.InternalFaultsAreUnreachable | server/soloring/worker/comfy_submission.py:119-166 | the ordering, missing-job, intent and duplicate-attempt failures never arise; a refused handle means a successor wrote uncertain |
| ProtocolHistory.StepFollows | server/alembic/versions/0004_comfy_submission_state.py:9-21 | no row vanishes or goes back: attempt, artifact, job, marks and terminal status are final |
| ProtocolTheorems.ConfirmedIsFrozen | scripts/m5b4_live_adoption.py:312-329 | once confirmed, no continuation changes attempt, submission bytes, hash, job or handle |
| ProtocolTheorems.TerminalIsFinal | server/soloring/worker/ownership.py:311-356 | a terminal row never changes again |
| ProtocolTheorems.SoftCancelIsFinal | server/alembic/versions/0005_soft_cancel_selection.py:7-14 | the mark implies the intent, is never undone, and no continuation publishes |
| ProtocolTheorems.BehaviourIsRun | server/soloring/worker/runtime.py:102-162 | every state of a behaviour is what some run of actions leads to |
| ProtocolTheorems.RunIsBehaviour | server/soloring/worker/runtime.py:102-162 | every run of actions is a behaviour, so a witness run shows a reachable state |
| ProtocolEffects.AdvanceIsLocal | server/soloring/worker/comfy_pipeline.py:309-560 | a step of a drive moves no other drive, row or log; its row only under the fence; its effect only from the point and store state that justify it |
| ProtocolLimits.UncertainForbidsPosts | server/soloring/worker/comfy_submission.py:176-204 | after uncertain no POST follows exactly when no drive stands between its authority proof and its POST |
| ProtocolWitnesses.PostAfterUncertain | server/alembic/versions/0004_comfy_submission_state.py:13-16 | the run in which a POST is made and accepted after uncertain |
| ProtocolCancellation.DestroyAfterSoftCancel | server/soloring/executors/comfy/cancel.py:34-61 | after the mark a call of either kind can follow exactly while the row is active or a drive is past its proof |
| ProtocolCancellation.NoHardCancelWithoutCapability | server/soloring/executors/comfy/cancel.py:43-58 | without a targeted, retry-safe capability no run interrupts a running job |
| ProtocolCancellation.UnrecordedReport | server/soloring/worker/comfy_cancellation.py:84-104 | a drive reports cancelled and writes nothing exactly on a remote cancel of an owned row without the mark; the row stays active |
| ProtocolCancellation.StrandedUntilTakeover | server/soloring/worker/recovery.py:80-86 | an active row whose owner stopped driving it keeps its status for as long as the owner keeps the lease |
| ProtocolCancellation.ActiveRowsCanEnd | server/soloring/worker/recovery.py:80-115 | from every reachable state some continuation brings an active row to a terminal status |
| ProtocolSuccess.SuccessExactly | server/soloring/worker/comfy_pipeline.py:309-560 | in every reachable state some continuation records success if and only if the row is succeeded, or active, unmarked and not given up, and, once the permit was taken, a prompt is at the executor or a drive can still post |
| ProtocolSuccess.SuccessDelivers | server/soloring/generation/importer.py:229-345 | a generation recorded as succeeded has published each declared output once |
| ProtocolDrive.DriveToSuccess | server/soloring/worker/comfy_submission.py:93-234 | a fresh drive of such a row can be led from its start to recorded success |
| ProtocolWitnesses.CancelledButActive | server/soloring/worker/comfy_pipeline.py:1050-1057 | the run that leaves a submitted row behind a reported cancel |
| ProtocolWitnesses.TerminalBeforeCancelPublishes | scripts/m5b5_live_cancellation.py:528-545 | a job that ended before selection publishes and succeeds despite the intent |
| ProtocolWitnesses.CancelledWithTake | server/soloring/worker/comfy_cancellation.py:90-101 | the run that ends soft-cancelled with a Take already minted |
| NarrativeUniqueness.UpgradeNeverFails | server/alembic/versions/0007_active_narrative_uniqueness.py:119-150 | every 0006 state upgrades, rows untouched |
| NarrativeUniqueness.RulesMean | server/alembic/versions/0007_active_narrative_uniqueness.py:119-150 | what each rule forbids, said of the rows: two active rows at one place, or any two |
| NarrativeUniqueness.DowngradeScript | server/alembic/versions/0007_active_narrative_uniqueness.py:191-213 | the DDL alone succeeds exactly on rows 0006 can hold; otherwise it stops in a schema that is neither head |
| NarrativeUniqueness.PreflightIsExact | server/alembic/versions/0007_active_narrative_uniqueness.py:153-188 | the grouped counts find something exactly when some global uniqueness would fail |
| NarrativeUniqueness.PairCheckIsNeeded | server/alembic/versions/0006_story_world_semantic_dependencies.py:221-234 | without the pair CHECK the preflight refuses representable rows |
| NarrativeUniqueness.AssignedFilterIsNeeded | server/alembic/versions/0007_active_narrative_uniqueness.py:166-170 | without the WHERE clause two unassigned shots would refuse the downgrade |
| NarrativeUniqueness.DowngradeIsAllOrNothing | server/alembic/versions/0007_active_narrative_uniqueness.py:191-213 | restores 0006 over the same rows, or refuses and changes nothing; refuses exactly unrepresentable rows |
| NarrativeUniqueness.UpgradeThenDowngrade | server/alembic/versions/0007_active_narrative_uniqueness.py:119-213 | up and down is the identity |
| NarrativeUniqueness.NarrativeStore.PreflightDowngradeRepresentable | server/alembic/versions/0007_active_narrative_uniqueness.py:166-181 | every table with colliding coordinates is reported, with exactly those |
| NarrativeUniqueness.NarrativeStore.DowngradeTo0006 | server/alembic/versions/0007_active_narrative_uniqueness.py:191-213 | in place, the preflight and the script are never half done |
| NarrativeUniqueness.NarrativeStore.UpgradeTo0007 | server/alembic/versions/0007_active_narrative_uniqueness.py:119-150 | in place, all six statements succeed and change only the rules |
| NarrativeOrder.OrderedTable.CompactActive | server/soloring/narrative/ordering.py:44-70 | every single row update clears the index; the active rows end at 0..N-1 in order; nothing else changes |
| NarrativeOrder.OrderedTable.ReorderFullSet | server/soloring/narrative/ordering.py:73-138 | succeeds exactly on a complete duplicate-free request, is otherwise without effect, and places every member at its index with the index valid after every row |
| NarrativeOrder.OrderedTable.NextPosition | server/soloring/narrative/ordering.py:27-41 | the append position is the least above every active one, and N when they are contiguous |
| NarrativeOrder.GlobalUniquenessBlocksCompaction | server/alembic/versions/0007_active_narrative_uniqueness.py:7-21 | under 0006 uniqueness the compacted state is legal exactly when no tombstone of the scope stands below N |
| SchemaVersions.Preflight0008 | server/alembic/versions/0008_narrative_continuity_state.py:454-514 | the ordered checks refuse exactly what 0007 cannot represent, each with its own error |
| SchemaVersions.CeilingsNest | server/alembic/versions/0009_m8_visual_identity.py:436-451 | clearing 0008 clears 0009, clearing 0009 clears 0010 |
| SchemaVersions.CeilingsAreStrict | server/alembic/versions/0008_narrative_continuity_state.py:459-475 | each inclusion is strict, and the first needs NOT NULL |
| SchemaVersions.CeilingsInNumbers | server/alembic/versions/0010_m10_spatial_cinematic_continuity.py:60-76 | the ceilings as numbers, document by document: 4 for 0009, 5 and 3 for 0010, 3 for 0011, and exactly 4 for 0015 |
| SchemaVersions.InvisibleTo0010 | server/alembic/versions/0010_m10_spatial_cinematic_continuity.py:60-68 | exactly the documents whose version compares as NULL escape the SQL count, and 0009 refuses them all |
| MigrationChain.MigrationConserves | server/alembic/versions/0010_m10_spatial_cinematic_continuity.py:51-77 | a step up or down, refused or not, loses, changes and adds no row and lands on a head |
| MigrationChain.RunConserves | server/alembic/versions/0012_m11_reusable_production_revisions.py:32-39 | in any run of writes, upgrades and attempted downgrades only writes touch rows |
| MigrationChain.Step0015Conserves | server/alembic/versions/0015_m14_world_observation_execution.py:30-47 | the 0015 step loses no row, and when it is refused |
| MigrationChain.StepDownExactly | server/alembic/versions/0011_m10_derived_spatial_execution.py:25-41 | a step down from any head is taken exactly if its tables, named, are empty and no document is NULL, malformed or at its numbered ceiling, and drops exactly those tables |
| MigrationChain.TablesExactly | server/alembic/versions/0010_m10_spatial_cinematic_continuity.py:80-110 | which tables each head has, by name |
| MigrationChain.DescentIsExact | server/alembic/versions/0009_m8_visual_identity.py:420-451 | a full descent reaches 0006 exactly when nothing above it was used; the 0009 and 0010 snapshot checks add nothing to 0008's |
| MigrationChain.SnapshotsBelow0008 | server/alembic/versions/0008_narrative_continuity_state.py:454-514 | in any mixed run a step leads from 0008 to 0007 exactly if it is a downgrade over empty 0008 tables and snapshots that 0007 can represent, which it keeps |
| MigrationChain.UpThenDown | server/alembic/versions/0011_m10_derived_spatial_execution.py:25-41 | up and down is the identity exactly when the documents clear that step's ceiling |
| MigrationChain.MigratedDatabase.TablesEmpty | server/alembic/versions/0010_m10_spatial_cinematic_continuity.py:52-59 | the loop finds exactly whether every demanded table is empty |
| MigrationChain.MigratedDatabase.Downgrade | server/alembic/versions/0009_m8_visual_identity.py:420-451 | in place, preflight and drops lower the head by one or change nothing |
| MigrationChain.MigratedDatabase.Upgrade | server/alembic/versions/0012_m11_reusable_production_revisions.py:42-52 | in place, the step creates its tables empty |
| CertifyingRun.Driver.PendingCell | post-m16-integrated-r3-evidence/harness/r3_tier_a.py:1954-1963 | the first listed cell that no record stands for, parts counting for the whole |
| CertifyingRun.RecordedByName | post-m16-integrated-r3-evidence/harness/r3_tier_a.py:1954-1960 | a record stands for its own name and, ending in a part letter, for the name before it; nothing else does |
| CertifyingRun.Driver.Run | post-m16-integrated-r3-evidence/harness/r3_tier_a.py:2024-2093 | the records of the run, and exit code 1 exactly when one of them fails |
| CertifyingRun.OneFailureAndLast | post-m16-integrated-r3-evidence/harness/r3_tier_a.py:78-94 | at most one failure, last, on a cell no other record names |
| CertifyingRun.FailureLandsOnNextCell | post-m16-integrated-r3-evidence/harness/r3_tier_a.py:1926-1963 | in any run whose phases keep to their lists, the failure is the last record and lands on a cell exactly if the raising phase recorded those before it and not this one, on the harness exactly if it recorded all |
| CertifyingRun.CutRecords | post-m16-integrated-r3-evidence/harness/r3_tier_a.py:2024-2093 | without a failure the records are what the phases up to the cut emitted, and no more |
| CertifyingRun.BeyondTheCut | post-m16-integrated-r3-evidence/harness/r3_tier_a.py:2033-2034 | phases behind the cut never change the records or the exit code |
| CertifyingRun.StandsForOne | post-m16-integrated-r3-evidence/harness/r3_tier_a.py:1926-1951 | over the ten lists a record name stands for at most one cell |
| CoverageLedger.FoldIsStatus | post-m16-integrated-r3-evidence/harness/r3_tier_a.py:1991-1998 | the fold passes a cell exactly when it was executed and all its records pass |
| CoverageLedger.BuildFullLedger | post-m16-integrated-r3-evidence/harness/r3_tier_a.py:1976-2021 | one row per table row, in order, with that status and the verdict of the cell's last failing record, or of its first if all passed |
| CoverageLedger.BuildHardenedLedger | post-m16-integrated-r3-evidence/harness/r3_tier_a-ledger-hardened.py:1989-2058 | the same with parts aggregated: any failure, else any missing evidence, else pass, and a verdict that lists the parts |
| CoverageLedger.HardenedRefinesOriginal | post-m16-integrated-r3-evidence/harness/r3_tier_a-ledger-hardened.py:2025-2050 | on every run a hardened pass is an original pass |
| CoverageLedger.HardenedMultiPartExactly | post-m16-integrated-r3-evidence/harness/r3_tier_a-ledger-hardened.py:2025-2050 | on every run a multi-part cell passes exactly when each part has a passing record and a file |
| CoverageLedger.HardenedByName | post-m16-integrated-r3-evidence/harness/r3_tier_a-ledger-hardened.py:2025-2050 | the same for the two multi-part cells with their parts by name |
| CoverageLedger.OriginalPassExactly | post-m16-integrated-r3-evidence/harness/r3_tier_a.py:1976-2021 | on every run an original pass means that some passing record is filed under the cell, and nothing more |
| CoverageLedger.LedgersDifferExactly | post-m16-integrated-r3-evidence/harness/r3_tier_a-ledger-hardened.py:2025-2050 | on every run the original passes a multi-part cell that the hardened ledger does not exactly when something passing is filed under it and some part lacks a record or file |
| CoverageLedger.LedgersDiffer | post-m16-integrated-r3-evidence/harness/r3_tier_a.py:1991-1998 | the abort after part 03a: original pass, hardened evidence missing |
| CoverageLedger.AbortedRecords | post-m16-integrated-r3-evidence/harness/r3_tier_a.py:1954-1963 | that run charges the failure to the following cell |
| CoverageLedger.PackagePassesExactly | post-m16-integrated-r3-evidence/harness/package_evidence.py:79-99 | the package passes exactly when guards pass, nothing failed, and 64 required cells each have a record |
| CoverageLedger.HardenedPackagePassesExactly | post-m16-integrated-r3-evidence/harness/package_evidence.py:79-99 | and, hardened, each part of a multi-part cell its record and file |
| ProofMap.ParseMap | scripts/m10f_validate_proof_map.py:98-145 | the loop computes the fold over the lines that the following rows are about |
| ProofMap.EntriesExactly | scripts/m10f_validate_proof_map.py:111-145 | in any text a key is an entry exactly if some line obliges it, with the fields and number of the last such line; likewise the appendix |
| ProofMap.ProblemsExactly | scripts/m10f_validate_proof_map.py:111-145 | a problem is reported exactly for the line that causes it: repeated keys of either kind, malformed rows, unknown dispositions |
| RowPatterns.CharacterClasses | scripts/m10f_validate_proof_map.py:85-96 | the character classes of the patterns, code by code |
| RowPatterns.ObligationsExactly | scripts/m10f_validate_proof_map.py:85-90 | cutting at bars and trimming reads a line as an obligation with these fields exactly if the row pattern matches it with these groups and the disposition is one of the four |
| RowPatterns.UnknownExactly | scripts/m10f_validate_proof_map.py:122-127 | an unknown disposition is exactly a match with any other |
| RowPatterns.BadRowsExactly | scripts/m10f_validate_proof_map.py:117-121 | a malformed row is exactly a line that starts like one and no groups match |
| RowPatterns.CommandsExactly | scripts/m10f_validate_proof_map.py:91-96 | a command is exactly a match of the appendix pattern, whose lazy fields may be one blank |
| RowPatterns.BadAppendixExactly | scripts/m10f_validate_proof_map.py:102-108 | any other line of that domain is malformed |
| ProofMap.TextRoundTrip | scripts/m10f_validate_proof_map.py:98-145 | any legal map, rendered in any order, parses back whole without a problem |
| ProofMap.RowRoundTrip | scripts/m10f_validate_proof_map.py:85-96 | each rendered row matches its pattern and gives back its fields |
| ProofMap.CommandDomainBreaksRoundTrip | scripts/m10f_validate_proof_map.py:103-113 | an obligation is read back exactly when its domain is not CMD |
| ProofOwners.OwnersAreClosed | scripts/m10f_validate_proof_map.py:161-167 | a bracket-free owner owns exactly the nodes whose text before the first bracket equals it |
| ProofOwners.M15PythonOwnerResolves | scripts/m15_validate_proof_map.py:95-109 | the early returns and the scan accept exactly when path, file and name guards hold and a node matches |
| ProofOwners.M16PythonOwnerResolves | scripts/m16_validate_proof_map.py:270-278 | accepts exactly when the file exists and a node matches, and fails on an owner without a separator |
| OwnerPatterns.M15OwnersExactly | scripts/m15_validate_proof_map.py:95-109 | the M15 rule by what an owner is put together from: directory, extension, test name pattern, file and node |
| OwnerPatterns.M16OwnersExactly | scripts/m16_validate_proof_map.py:270-278 | the M16 rule likewise |
| ProofOwners.ClosedRuleImpliesLooser | scripts/m15_validate_proof_map.py:95-109 | what the M10F rule accepts, M15 accepts exactly when its guards hold, and likewise M16 |
| ProofOwners.GuardsRefuseCollected | scripts/m15_validate_proof_map.py:99-104 | a collected node outside tests/, or of a class, is accepted by M10F and refused by M15 whatever files exist |
| ProofOwners.ClassTestIsRefused | scripts/m15_validate_proof_map.py:99-104 | two such nodes by name, a test method and a test of another directory |
| ProofOwners.RulesAgreeWithoutParameter | scripts/m16_validate_proof_map.py:270-278 | without a parameter the rules agree up to the guards |
| ProofOwners.StaleParameterPasses | scripts/m15_validate_proof_map.py:105-109 | over any node list, M15 or M16 accepts what M10F does not exactly when its guards hold, the owner has a bracket and is not collected, and another parameter of its function is |
| ProofOwners.StaleMeans | scripts/m16_validate_proof_map.py:270-278 | that is: some collected node with a bracket has the same text before its bracket |
| ProofOwners.AnyParameterGoesStale | scripts/m15_validate_proof_map.py:105-109 | every guarded owner with a parameter passes so with any other parameter as the only node |
| ProofUniverse.CheckUniverse | scripts/m16_validate_proof_map.py:301-318 | error-free exactly on a duplicate-free listing of the required cells; reports exactly the repeated, missing and unknown cells |
| ProofUniverse.CheckOwners | scripts/m16_validate_proof_map.py:321-366 | error-free exactly with good and pairwise different owners, 164 rows and the right family counts; an error is reported exactly for its cause, the other user of a shared owner being the last before |
| OwnerPatterns.UniverseOwnersExactly | scripts/m16_validate_proof_map.py:270-298 | which owners are good, kind by kind, by the text of the owner and of the file it names, and which verdict the others get |
| OwnerPatterns.UnfinishedExactly | scripts/m16_validate_proof_map.py:329-333 | unfinished exactly if the lowered owner contains one of the two words |
| ProofUniverse.CountsFollowFromListing | scripts/m16_validate_proof_map.py:54-58 | in a listing the counts hold exactly when no family repeats an id |
| ProofUniverse.Validate | scripts/m16_validate_proof_map.py:369-381 | both together: when the validator succeeds, and which of the two reports it prints otherwise |
| ProofTable.ValidateRows | scripts/m15_validate_proof_map.py:131-180 | error-free exactly on a duplicate-free listing of the required cells with resolving or promised owners, none promised in closure mode, and frozen tables that agree; each error is reported exactly for its cause, repeated rows counting once |
| OwnerPatterns.PendingPythonExactly | scripts/m15_validate_proof_map.py:70-72 | the promised Python owners are exactly the words of the frozen pattern |
| OwnerPatterns.PendingFrontendExactly | scripts/m15_validate_proof_map.py:73-75 | and the promised front-end owners of theirs |
| OwnerPatterns.FrontendTitlesExactly | scripts/m15_validate_proof_map.py:112-123 | a front-end owner resolves exactly if its file holds the title between like quotes |
| ProofTable.CountsFollow | scripts/m15_validate_proof_map.py:166-176 | in a listing the derived count of a family is its required size |
| FrameChain.BindControlStream | server/soloring/executors/comfy/translate.py:433-473 | all generated ids are checked before the graph is touched; the new nodes and the one link are as laid out |
| FrameChain.HeadInText | server/soloring/executors/comfy/translate.py:471-473 | the link the target gets, for one frame and for more |
| FrameChain.BatchInText | server/soloring/executors/comfy/translate.py:461-470 | the generated batch nodes as they are written: class, both links, ids |
| FrameChain.WalkFrames | scripts/m10e_live_smoke.py:480-493 | the walk ends on any ranked region and succeeds exactly when there is a chain, with its frames in order |
| FrameChain.ChainRoundTrip | server/soloring/executors/comfy/translate.py:433-473 | one expansion on its own: the link walks back to exactly its frames if and only if the target was there before |
| FrameChain.ChainIsUnique | scripts/m10e_live_smoke.py:480-493 | a graph holds at most one chain from a node |
| ControlProjection.OrderStages | server/soloring/spatial/package3.py:731-746 | the passes place every stage behind its predecessor, and refuse exactly the chains that no rank orders |
| ControlProjection.RemoveInactive | server/soloring/spatial/package3.py:748-797 | downstream-first removal leaves values led to the nearest predecessor that is left and no link to anything removed; it only fails on a loader used outside |
| ControlProjection.LeadsToOne | server/soloring/spatial/package3.py:754-763 | where a link leads is determined by the template, not by the order of removal |
| ControlProjection.Project | server/soloring/spatial/package3.py:673-839 | a projected view is the template with every link led over the inactive stages, active stages kept and nothing dangling; each refusal comes with its cause, an unknown key exactly for one, and a certified template is projected exactly if all keys are known |
| ControlProjection.ProjectedOnce | server/soloring/spatial/package3.py:673-839 | a template and a set of active keys admit one projected view |
| ControlStreams.GeneratedApart | server/soloring/executors/comfy/translate.py:447-458 | streams of different keys never generate the same node id |
| ControlStreams.BindStreams | server/soloring/executors/comfy/translate.py:353-430 | stream after stream into one graph: accepted exactly if targets are unowned, frames uploaded and ids free; afterwards all chains stand and all other values are as before |
| PromptGraph.BindEverything | server/soloring/executors/comfy/translate.py:209-329 | accepted exactly if every value's input exists and nothing is owned twice; every value then stands, and every chain walks back to its frames |
| PromptGraph.BuildPrompt | server/soloring/executors/comfy/translate.py:131-349 | from any template: in the finished graph every control stream's link walks back to exactly its frames and every value stands; a certified template is built exactly if uploads, bindings, keys, values and streams are as demanded, and every error names the demand that failed |
| ArchiveFidelity.DecodeGitPath | scripts/m10f_archive_fidelity.py:20-36 | the loop decodes as specified, literally where an escape is no byte |
| ArchiveFidelity.QuotesDecide | scripts/m10f_archive_fidelity.py:20-36 | only a path between double quotes is changed, and without an escape for a byte only the quotes go |
| ArchiveFidelity.PathRoundTrip | scripts/m10f_archive_fidelity.py:20-36 | every path without controls, quotes and backslashes survives git's quoting |
| ArchiveFidelity.StrippedRoundTrip | scripts/m10f_archive_fidelity.py:56-57 | with the caller's strip, exactly the quoted ones and those without outer blanks |
| ArchiveFidelity.ConversionMatchesExactly | scripts/m10f_archive_fidelity.py:75-83 | documented conversion never reports a mismatch exactly on blobs without CR LF |
| ArchiveFidelity.NormalizeConcat | scripts/m10f_archive_fidelity.py:75-83 | normalization works piece by piece wherever no CR LF is cut |
| Utf8.Utf8RoundTrip | scripts/m10f_archive_fidelity.py:34-36 | decoding inverts encoding (section 3 of RFC 3629) |
| Utf8.Utf8Exactly | scripts/m10f_archive_fidelity.py:34-36 | decoding succeeds exactly on encodings: overlong, surrogate, truncated and stray bytes are errors |
| PngWriter.MakePng | scripts/m5b3_live_run.py:73-96 | the loops build the specified scanlines and chunks; they overflow exactly when a size or the compressed length exceeds four bytes |
| PngWriter.PaintLine | scripts/m5b3_live_run.py:84-90 | overwriting the green bytes of the template in place gives the specified line |
| PngWriter.RawLength | scripts/m5b3_live_run.py:80-90 | the raw image has height * (1 + 3 * width) bytes |
| PngWriter.RawPixel | scripts/m5b3_live_run.py:80-90 | where pixel (x, y) lies, what it is, and that each line starts with filter 0 |
| PngWriter.PngReadsBack | scripts/m5b3_live_run.py:91-96 | the file parses back to IHDR, IDAT, IEND stating the size and holding the compressed image (section 5.3 of the W3C PNG Specification) |

## Left out

- Timestamps, progress figures, error codes and messages of a generation row: no property here depends on them.
- The fake executor path, input upload and translation before the submission, download, file staging and media checks of outputs: effects outside the durable protocol; a failure in them is the arbitrary fault `Protocol.Throw`. Of staging the model keeps that the staged keys must be the declared ones.
- `persist_owned_executor_handle`: used only by the fake executor path.
- The staleness threshold of the recovery scan: the model lets the lease holder adopt any active row it does not own, which allows every run of the code and more.
- A worker that lost its lease and never gets it back, as `run_worker` returns then: the model keeps its drives running until they crash, which again allows more runs.
- The executor's disappearance tracker: an absence may be answered at any time.
- Liveness: what stays reachable is proved (`ActiveRowsCanEnd`, `SuccessExactly`), not that it is reached.
- ProtocolTheorems.SoftCancelIsFinal: the "never hard-cancel" half of the claim is false; its exact condition is DestroyAfterSoftCancel.
- Plain lookup indexes and foreign keys of the migrations, and migrations below 0006, 0013, 0014 and from 0016 on.
- JSON text itself: a document is its parsed version; duplicate keys and the dialect differences between Python's and SQLite's readers are not modelled.
- SchemaVersions.Preflight0008: the revision id in the message is not modelled.
- The listing of rows, revisions or families that a query or a dictionary returns is a parameter of the methods that walk it.
- Failing writes of cell evidence files and signals in the certifying driver; evidence files are a parameter of the hardened ledger.
- The line pattern of the M15 map: `ProofTable` starts from what it captures of each matching line.
- ProofUniverse.CheckOwners: an owner that makes the validator crash counts as an error, since neither exits with success; lower-casing is ASCII only.
- The byte-exact branch and pattern matching of the archive comparison, and paths with control characters, quotes or backslashes.
- Compression and CRC-32: parameters of the image writer; the read-back returns the compressed bytes, and decompression is not modelled.
- JSON inputs that the graph code does not read as text or as a list starting with a node id are kept as they are, and subscripting them fails; numeric node ids, which the projection turns to text, are not modelled.
- PromptGraph.BuildPrompt: does not model the comparison of the workflow spec with the verified uploads (roles, positions, missing and extra keys), the manifest grammar, and the outputs and marker of the payload.
