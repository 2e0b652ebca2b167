# Storage migration controller: a verified model

The repository is a Kubernetes controller that moves the disks of virtual machines (VMs) from one storage class to
another. A *migration* walks through phases (Started, Refresh, WaitRefresh, Begin, Wait, Cleanup, Completed, and a
cancel pipeline Canceling, CleanupCancelled, Canceled), rewrites each VM's claims onto destination disks, and deletes
disks at the end. A *plan* records, per VM, which claim is the source and which the destination of each volume, and
rebuilds its status lists on every reconcile. A *multi-namespace* parent owns one child per namespace. What can go
wrong is that a disk in use is deleted, that the record of where a VM came from is lost, or that two reconcilers
disagree; that is what is proved here, for every run.

How it is modelled:

- Each reconcile is one atomic pass over an API whose every call may fail (a schedule of faults), followed by two
  writes, metadata and then status, each of which may fail. Runs interleave passes with an environment that changes
  VMIs, VMIMs, DataVolumes, claims, plan lists and deletion marks freely, within the limits each run predicate states.
  Plan deletion and the refresh stamps split the plan reconcile into its read and its writes.
- Code that updates things step by step is a method or a class with the same loops and early returns, proved equal to a
  specification function; the lemmas over runs are about those functions.

| file | contents |
|---|---|
| Basics, Objects | options, sequences; VMs, plan entries, phases, finalizers |
| VolumeRewrite, Confinement | rewriting a VM onto its destinations and back; which VM may name which claim |
| ClusterApi, TaskSpec, MigrationTask | the cluster behind a fallible API; one pass, as functions and as the Task class |
| RewriteDetails | the same, for any plan entry, index by index |
| CrashPoints, PassEffects, PatchLog, CleanupCompleteness | what the calls of one pass do, at every prefix |
| BeginOutcome, MigrateSuccess, WaitOutcome, CancelVerdicts | which VMs a pass begins, finds finished or cancels, and with which disks |
| PassOutcome | which handler runs, when a pass moves on, what is stored |
| MigrationController, MigrationRun | persisting a migration; whole runs |
| ClaimSafety, SourceCleanup, LostCancel | no claim in use is deleted; exactly when one is; a run that does |
| CancelOutcome, CancelConvergence, CancelRun | what cancelling deletes; that it ends |
| PlanDeletion, RefreshHandshake | the two protocols between plan and migration |
| PlanNaming, PlanLists, PlanRecording, PlanVerdicts | what a plan records, which VMs it lists, and which are ready |
| PlanPartition, PlanSticky, PlanCompletion, PlanRun | the plan's lists over reconciles and runs |
| Conditions | the conditions collection as a map |
| NamespaceOrder, MultiNamespace, ChildOwnership | parents and children across namespaces |

Where the code does not do what one would hope, the model follows the code, and the exact condition is proved:

- deleteSource cleanup deletes a claim in use exactly when its VM carries the disk and the last pass that patched the VM was
  a cancel pass, whose writes were then lost while the plan's own deletion let the migration go on (`SourceCleanupInUseIff`,
  `HeldPlanAfterLostCancel`).
- On reaching Canceled exactly the destinations of VMs still running when the last cancel pass began are deleted; those
  of VMs cancelled earlier stay (`CancelDeletesExactly`, `ForgottenTargetStays`).
- On reaching Completed exactly the sources that the plan's completed entries record by then are deleted; those of
  completed VMs the plan has not moved yet stay (`CompletedDeletesExactly`, `LaggingPlanKeepsSource`).
- The end stamp of a refresh is stored before the lists it stands for, so lists can be older than the stamp a migration
  waited for: exactly unless a reconcile that read after the stamp also had its status stored (`LeaveListsAreFreshIff`,
  `ListsMayBeStale`).
- Healing a plan that still lists a VM elsewhere lists the VM twice, and the plan never shows completed
  (`HealingCompletesExactly`).
- "Every spec VM exactly once" holds exactly for distinct spec names (`CoverIsExactIff`, `RepeatedSpecNameMisleads`).
- Reverting restores names but gives templates the destination's storage class (`RevertKeepsDestinationClass`).

## Model

| member | source | states |
|---|---|---|
| `VolumeRewrite.RevertUndoesPrepare` | internal/controller/storagemig/cancel.go:218-244 | with distinct volumes, sources and destinations, migrating a VM and then reverting it restores every volume claim and every template name if and only if the VM was on its recorded sources and no template that stays behind carries a destination name |
| `VolumeRewrite.PrepareIdempotent` | internal/controller/storagemig/vm.go:228-282 | when no source is also a destination, rewriting a VM twice is rewriting it once |
| `VolumeRewrite.PrepareReroutes` | internal/controller/storagemig/vm.go:233-282 | a rewrite moves exactly the routed volumes and templates, each to its own destination, and leaves everything else untouched; it cannot fail on an aligned entry |
| `VolumeRewrite.RevertFlips` | internal/controller/storagemig/cancel.go:218-244 | the reverted entry swaps source and destination of every route and keeps storage classes; it is refused if and only if some volume would stay where it is |
| `VolumeRewrite.RevertKeepsDestinationClass` | internal/controller/storagemig/vm.go:264-282 | a template that went and came back has its own name again but the destination's storage class, in spec.storage or else spec.pvc; it is restored altogether if and only if it asked for that class before or has no place for one |
| `VolumeRewrite.RevertToleratesCorruption` | internal/controller/storagemig/cancel.go:149-244 | whatever subset of recorded sources was overwritten with destination names, a successful cancel rewrite puts each planned volume on its recorded source, or on the one KubeVirt remembers, and never on its destination |
| `VolumeRewrite.PrepareVMForStorageMigration` | internal/controller/storagemig/vm.go:228-282 | the two-map loop over volumes and templates computes the element-wise rewrite the lemmas are about, error cases included |
| `VolumeRewrite.RecoverCorruptedSourcePVCs` | internal/controller/storagemig/cancel.go:177-201 | the in-place repair loop replaces exactly the overwritten sources, and fails if and only if one of them cannot be recovered |
| `VolumeRewrite.SourceClaimFromVolumeUpdateState` | internal/controller/storagemig/cancel.go:203-216 | finds the first migrated volume whose destination is the claim and whose source is known |
| `VolumeRewrite.RevertPlanVolumes` | internal/controller/storagemig/cancel.go:218-244 | the index loop over a copy computes the reverted entry that RevertFlips characterises |
| `RewriteDetails.PrepareExactly` | internal/controller/storagemig/vm.go:228-282 | for any entry, later records winning: the rewrite fails if and only if the VM has no name or something that moves has no destination; otherwise each volume is on the destination of the last target of its name, each template whose source moves has that destination's name and class, and nothing else changes |
| `RewriteDetails.RecoverExactly` | internal/controller/storagemig/cancel.go:177-216 | the recovery fails if and only if the lists differ in length or an overwritten source is not remembered by KubeVirt; otherwise exactly the overwritten sources become the remembered ones |
| `RewriteDetails.RevertIsInvolution` | internal/controller/storagemig/cancel.go:218-244 | reverting a reverted entry gives back the entry, missing destinations and classes included |
| `RewriteDetails.RevertExchanges` | internal/controller/storagemig/cancel.go:218-244 | source and destination names are exchanged index by index; where there is no destination both stay |
| `RewriteDetails.RevertMigrates` | internal/controller/storagemig/cancel.go:149-172 | a cancelled VM is told to migrate its volumes, and changes in volumes and templates only |
| `Confinement.PrepareMovesOffSources` | internal/controller/storagemig/vm.go:228-282 | migrating a VM that names only its own planned claims always succeeds, keeps that, and takes it off all its sources |
| `Confinement.RevertMovesOffTargets` | internal/controller/storagemig/cancel.go:149-172 | cancelling such a VM always succeeds, keeps that, and takes it off all its destinations |
| `CrashPoints.LiveMigrateCrashSafe` | internal/controller/storagemig/vm.go:86-123 | at every prefix of the writes, for any failing call, the VM is changed only once all its destination DataVolumes exist |
| `CrashPoints.OfflineMigrateCrashSafe` | internal/controller/storagemig/vm.go:54-84 | at every prefix of the writes, for any failing call, a DataVolume created by the pass implies the VM has been rewritten |
| `CrashPoints.NoCloneWhileOnSources` | internal/controller/storagemig/vm.go:54-84 | so no clone is created while the VM still names a source being cloned |
| `BeginOutcome.OfflineMigrateOrigin` | internal/controller/storagemig/vm.go:54-84 | every DataVolume an offline migration creates is one of the entry's destinations, cloned from the source recorded beside it; when it succeeds the VM has every recorded volume and all destination DataVolumes exist |
| `BeginOutcome.LiveMigrateOrigin` | internal/controller/storagemig/vm.go:86-123 | every DataVolume a live migration creates is one of the entry's destinations, blank; when it succeeds, also, the VM is told to migrate its volumes |
| `BeginOutcome.DisksAreBlankOrClones` | internal/controller/storagemig/task.go:199-236 | whatever calls fail, a reconcile creates DataVolumes in a begin pass only, for planned VMs that are to be begun: blank ones if the VM has a VMI, otherwise clones of its own recorded sources |
| `BeginOutcome.BeginPassExactly` | internal/controller/storagemig/task.go:199-236 | a begin pass that gets through moves on and records as running, in order, exactly the planned VMs without a VMI and those whose VM exists and can migrate live or is not running; each has all its destination DataVolumes |
| `MigrateSuccess.MigrateSucceeds` | internal/controller/storagemig/vm.go:54-226 | while no call fails, migrating a VM takes the recorded volumes, a possible rewrite and, per target, a named destination and a source with a claim, and that is enough if a claim owned by a DataVolume still has it; destinations that exist already are no obstacle |
| `MigrationTask.VMReferencesTargetVolumes` | internal/controller/storagemig/cancel.go:78-100 | the nested search answers whether any volume or template names a destination of the entry |
| `MigrationTask.VMOnSourceVolumes` | internal/controller/storagemig/cancel.go:30-76 | true exactly when the VM has an entry with sources, names none of its destinations, and every source is carried by its volume |
| `MigrationTask.Task.Run` | internal/controller/storagemig/task.go:64-123 | one pass computes the phase function whose runs the lemmas quantify over: entry phase, cancel decision, handler |
| `MigrationTask.Task.LiveMigrateVM` | internal/controller/storagemig/vm.go:86-123 | the call sequence, stopping at the first failing call, that LiveMigrateCrashSafe is about |
| `MigrationTask.Task.OfflineMigrateVM` | internal/controller/storagemig/vm.go:54-84 | the call sequence, stopping at the first failing call, that OfflineMigrateCrashSafe is about |
| `MigrationTask.Task.CancelLiveMigration` | internal/controller/storagemig/cancel.go:149-172 | fetch, recover, revert, patch: the new cluster is the old one with the VM rewritten, or unchanged on error |
| `MigrationTask.Task.IsVMOnSourceVolumes` | internal/controller/storagemig/cancel.go:30-76 | reads only; agrees with VMOnSourceVolumes on the fetched VM |
| `MigrationTask.Task.HasActiveMigration` | internal/controller/storagemig/task.go:337-357 | reads only; true if and only if a VMIM of the VM made since the migration began is in flight |
| `MigrationTask.Task.HandleBeginLiveMigration` | internal/controller/storagemig/task.go:199-236 | VMs begun before a failing one stay recorded, and the phase advances only when all have been tried |
| `MigrationTask.Task.HandleWaitForLiveMigrationToComplete` | internal/controller/storagemig/task.go:238-278 | finished VMs are appended as found even when the pass then fails; the running list is replaced only by a full pass |
| `MigrationTask.Task.HandleCanceling` | internal/controller/storagemig/task.go:280-335 | running and cancelled lists are replaced, together, only by a pass that reaches the end |
| `MigrationTask.Task.HandleCleanupMigrationResources` | internal/controller/storagemig/task.go:150-169 | completes, and drops the finalizer, only when leftovers are gone and, under deleteSource, every deletion has succeeded |
| `MigrationTask.Task.DeleteSourceDataVolumesAndPVCs` | internal/controller/storagemig/task.go:438-500 | the loop with its set of visited names computes the deletions that DeleteSourcesEffect and SourcesGone describe |
| `MigrationTask.Task.CleanupCancelledMigrationResources` | internal/controller/storagemig/cancel.go:113-147 | the nested loops compute the deletions that CancelCleanupIsSafe and CanceledLeavesNoTarget describe |
| `WaitOutcome.WaitPassExactly` | internal/controller/storagemig/task.go:238-278 | a wait pass that gets through moves a VM to Completed if and only if, with a VMI, the first VMIM of its name that has not failed and is not older than the migration has completed and not failed, or, without one, its entry is there and every destination DataVolume exists and is not pending |
| `WaitOutcome.WaitOneExactly` | internal/controller/storagemig/task.go:359-378 | one check reports finished only of a VM that has moved in that sense and running only of one that has not |
| `WaitOutcome.NewlyCompletedHasMoved` | internal/controller/storagemig/task.go:238-278 | any reconcile, failing ones included, newly lists as completed only running VMs that have moved |
| `WaitOutcome.CompletedHasMoved` | internal/controller/storagemig/task.go:238-278 | in every run, a VM listed as completed was running and had moved at a reconcile that listed it |
| `CancelVerdicts.CancelPassExactly` | internal/controller/storagemig/task.go:280-335 | a cancel pass that gets through lists as cancelled exactly the running VMs without a VMI and those that are back on their sources with no VMIM of theirs in flight since the migration began, and keeps the others in order |
| `CancelVerdicts.CancelOneExactly` | internal/controller/storagemig/task.go:280-335 | one VM: reported cancelled only in those cases, put back unless it is back already, and no other VM is touched |
| `CancelVerdicts.OnSourceIff` | internal/controller/storagemig/cancel.go:30-76 | the on-source check says that the first entry of the name records sources, that no volume or template names a destination, and that each source is the claim of the volume it was recorded for |
| `PassOutcome.RunsHandlerOf` | internal/controller/storagemig/task.go:64-148 | a reconcile that runs the task runs the handler of the stored phase, except that a migration being deleted whose plan is not held runs the cancel handler until its cancel cleanup |
| `PassOutcome.LeftAlone` | internal/controller/storagemig/controller.go:95-140 | a reconcile of a migration that is not being deleted and is blocked, without a plan or Completed changes nothing at all |
| `PassOutcome.FinishedIsReleased` | internal/controller/storagemig/controller.go:77-150 | a finished migration being deleted only loses its finalizer |
| `PassOutcome.DeletionCancels` | internal/controller/storagemig/task.go:127-148 | in every run, deleting a migration that is not Completed and whose plan is not held leads to the cancel pipeline as soon as writes go through |
| `PassOutcome.StartedMovesOn` | internal/controller/storagemig/task.go:64-80 | the finalizer is on and the phase moves on, nothing else |
| `PassOutcome.RefreshMovesOn` | internal/controller/storagemig/vm.go:323-345 | the start stamp is written exactly when the pass moves on, which takes a plan and two calls that work |
| `PassOutcome.WaitRefreshMovesOn` | internal/controller/storagemig/vm.go:347-376 | the pass moves on if and only if both stamps can be read and the end is strictly after the start |
| `PassOutcome.WaitMovesOn` | internal/controller/storagemig/task.go:238-278 | the pass moves on if and only if it gets through and every running VM has moved; otherwise it polls |
| `PassOutcome.FaultlessWait` | internal/controller/storagemig/task.go:238-278 | a wait pass in which no call fails gets through if the plan is there and names its destinations |
| `PassOutcome.CleanupMovesOn` | internal/controller/storagemig/task.go:150-169 | cleanup ends only with leftovers gone and sources not awaited, exactly then when no call fails, and only then takes the finalizer off |
| `PassOutcome.CancelCleanupMovesOn` | internal/controller/storagemig/task.go:171-184 | cancel cleanup ends only with leftovers gone, exactly then when no call fails |
| `PassOutcome.CanceledIsReleased` | internal/controller/storagemig/task.go:186-197 | a cancelled migration loses its finalizer and stays cancelled |
| `PassEffects.BeginLoopInvariant` | internal/controller/storagemig/task.go:199-236 | a begin pass, also a failing one, keeps VMs on their own claims and leaves every VM it records off all its sources |
| `PassEffects.CancelOneInvariant` | internal/controller/storagemig/task.go:280-335 | handling one VM never lists it as cancelled while it names a destination |
| `PassEffects.CancelLoopInvariant` | internal/controller/storagemig/task.go:280-335 | a cancel pass lists a VM as cancelled only if it is off all its destinations and, having a VMI, has no active VMIM |
| `PassEffects.DeleteCancelledEffect` | internal/controller/storagemig/cancel.go:113-147 | cancel cleanup deletes only DataVolumes that are destinations of VMs listed as cancelled, and no claims |
| `PassEffects.DeleteSourcesEffect` | internal/controller/storagemig/task.go:438-500 | source cleanup deletes only listed sources, each namespace and name once |
| `PassEffects.SourcesToDeleteAt` | internal/controller/storagemig/task.go:420-436 | a listed source belongs to a plan-completed entry of a VM this migration completed, and every such source is listed |
| `CleanupCompleteness.CompletedLeavesNoSource` | internal/controller/storagemig/task.go:150-169 | a migration reaching Completed under deleteSource has deleted every source the plan's completed entries record for the VMs it completed |
| `CleanupCompleteness.CompletedDeletesExactly` | internal/controller/storagemig/task.go:150-169 | on reaching Completed under deleteSource, an existing DataVolume, or a claim without one, is gone if and only if the plan's completed entries record it for a VM the migration completed |
| `CleanupCompleteness.LaggingPlanKeepsSource` | internal/controller/storagemig/task.go:420-500 | a migration that completed two VMs, of which the plan has moved one, reaches Completed with the other's source still there |
| `CleanupCompleteness.SourcesGone` | internal/controller/storagemig/task.go:438-500 | a successful deletion loop leaves no listed source behind, although repeated names are skipped |
| `CleanupCompleteness.JoinedNameIdentifies` | internal/controller/storagemig/task.go:438-500 | namespace/name joined with a slash identifies the claim, so skipping visited names skips no other claim |
| `CleanupCompleteness.CanceledLeavesNoTarget` | internal/controller/storagemig/task.go:171-184 | a migration reaching Canceled has deleted every destination of every VM its last cancel pass recorded |
| `CleanupCompleteness.EarlierCancelledIsForgotten` | internal/controller/storagemig/task.go:324-335 | a VM that is not running when a cancel pass begins is not in the cancelled list the pass leaves |
| `CleanupCompleteness.CanceledDeletesExactly` | internal/controller/storagemig/cancel.go:113-147 | on reaching Canceled, with destinations distinct across VMs, an existing destination is gone if and only if its VM is in the cancelled list |
| `CancelOutcome.CancelDeletesExactly` | internal/controller/storagemig/task.go:171-184 | in every run that reaches Canceled, an existing destination of a planned VM is gone if and only if the VM was in the running list the last cancel pass started from |
| `CancelOutcome.CancelledListOrigin` | internal/controller/storagemig/task.go:280-335 | in every run at CleanupCancelledMigrations, the cancelled list is a permutation of what was running when the last cancel pass began |
| `CancelOutcome.ForgottenTargetStays` | internal/controller/storagemig/task.go:280-335 | a sound run that cancels one VM in its first pass and another in its second ends Canceled with the first one's destination still there and named by nobody |
| `MigrationController.MigrationReconciler.ReconcileMigration` | internal/controller/storagemig/controller.go:77-150 | one reconcile: the pass when it may run, then both writes, whatever the pass returned |
| `MigrationController.MigrationReconciler.PersistMigration` | internal/controller/storagemig/controller.go:152-175 | metadata first, status only after it; a failed write leaves the rest as stored |
| `PassOutcome.StoredExactly` | internal/controller/storagemig/controller.go:152-175 | finalizers change with the first write, phase and lists only with both; nothing else of the migration and nothing of the plan changes |
| `MigrationRun.PhaseProgress` | internal/controller/storagemig/task.go:64-197 | over every run the phase rank never drops, Completed and Canceled are final, the cancel pipeline is never left, and no run visits both Completed and the pipeline |
| `MigrationRun.ReconcilePhase` | internal/controller/storagemig/task.go:127-148 | a reconcile enters the cancel pipeline only for a migration being deleted whose plan does not hold its own deletion |
| `MigrationRun.RunPhaseShape` | internal/controller/storagemig/task.go:64-123 | what any pass in any phase, failed or not, can do to phase, lists and finalizer |
| `MigrationRun.CrashConsistentFinalizer` | internal/controller/storagemig/controller.go:152-175 | in every stored state of every run, also between the two writes, a running VM implies the finalizer |
| `MigrationRun.NoVMIsLost` | internal/controller/storagemig/task.go:238-278 | running and completed VMs together never change while a migration waits, failed passes and lost writes included; what it lists when Completed is what it had begun |
| `MigrationRun.CancelConservesVMs` | internal/controller/storagemig/task.go:280-335 | over any chain of successful cancel passes, all their cancelled lists plus what still runs is, as a multiset, what ran at first |
| `MigrationRun.WaitLoopLists` | internal/controller/storagemig/task.go:238-278 | effect of a wait pass on the lists, full and failing |
| `MigrationRun.CancelLoopLists` | internal/controller/storagemig/task.go:280-335 | effect of a cancel pass on the lists as multisets |
| `ClaimSafety.CancelCleanupIsSafe` | internal/controller/storagemig/cancel.go:113-147 | in every run, with failed and retried passes, no DataVolume deleted by cancel cleanup is named by any VM's volumes or templates, before or after |
| `ClaimSafety.CancelPassRecordsSafely` | internal/controller/storagemig/task.go:280-335 | in every run, a VM is listed as cancelled only off all its destinations and, with a VMI, with no active VMIM at that moment |
| `ClaimSafety.OnlyCleanupDeletes` | internal/controller/storagemig/task.go:64-123 | in every run, nothing is deleted outside the two cleanup phases |
| `SourceCleanup.SourceCleanupInUseIff` | internal/controller/storagemig/task.go:150-169 | in every run, source cleanup deletes a claim only under deleteSource; the claim is a recorded source of a plan-completed VM this migration completed, deleted once, named by no other VM, and named by that VM if and only if the VM carried the routed volume or template from the start and the last pass that patched it was a cancel pass |
| `SourceCleanup.KeepSourceDeletesNothing` | internal/controller/storagemig/task.go:150-169 | whatever state and failing calls, cleanup without a plan, or with one that does not ask for deleteSource, deletes nothing and leaves every DataVolume and claim as it is |
| `SourceCleanup.EveryVMIsLocated` | internal/controller/storagemig/task.go:199-335 | in every run, a VM last patched by a cancel pass is back on its sources and off its destinations, any other VM the migration lists is off its sources, and no rewrite changes which routes a VM carries |
| `PatchLog.RunPhaseTells` | internal/controller/storagemig/task.go:64-123 | in any pass, failed or not, a VM the pass does not patch is unchanged; a VM it patches ends put back on its sources if the pass ran the cancel handler, off its sources if it ran any other |
| `SourceCleanup.SourceCleanupIsSafe` | internal/controller/storagemig/task.go:150-169 | in every run, unless a cancel pass came earlier and the plan holds its own deletion now, each claim source cleanup deletes is a recorded source of a plan-completed VM this migration completed, deleted once, and named by no VM (from the exact condition above) |
| `ClaimSafety.NoCleanupAfterCancel` | internal/controller/storagemig/task.go:127-148 | after a cancel pass, source cleanup can only run while the plan holds its own deletion |
| `LostCancel.HeldPlanAfterLostCancel` | internal/controller/storagemig/task.go:127-148 | that exception is real: a sound start, a cancel pass whose writes are lost, then plan deletion, and source cleanup deletes the claim the VM was put back on |
| `CancelConvergence.CancelingConverges` | internal/controller/storagemig/task.go:280-335 | with no API errors, no active VMIMs and an entry for each VM, two cancel passes empty any running list and reach CleanupCancelledMigrations |
| `CancelRun.CancelingConvergesInRuns` | internal/controller/storagemig/task.go:280-335 | in every run, two cancel passes without failing calls or writes, with any environment steps in between, empty any running list and reach CleanupCancelledMigrations, if at both moments every running VM exists with its entry and no VMIM is active |
| `CancelConvergence.RevertPutsOnSource` | internal/controller/storagemig/cancel.go:149-172 | a successful revert makes the on-source check true |
| `PlanDeletion.PlanDeletionNeverCancels` | internal/controller/storagemig/task.go:127-148 | in every interleaving from the moment plan deletion begins, a migration outside the cancel pipeline then never reaches Canceling or Canceled, and is Completed (or gone) once the finalizer is |
| `PlanDeletion.FinalizerGoesLast` | internal/controller/storagemigplan/controller.go:91-111 | the finalizer is removed only when every migration the deciding read saw is Completed or Canceled, still so at the write |
| `PlanDeletion.HasActiveMigrations` | internal/controller/storagemigplan/controller.go:377-390 | true if and only if some listed migration is neither Completed nor Canceled |
| `PlanDeletion.ReconcileDeletion` | internal/controller/storagemigplan/controller.go:91-111 | the finalizer stays while a migration is active and goes otherwise |
| `RefreshHandshake.LeavesOnlyAfterRefresh` | internal/controller/storagemig/vm.go:323-376 | whichever of any number of migrations leaves the wait phase, some plan reconcile that read the plan after the current start stamp has committed, whatever the clocks say |
| `RefreshHandshake.EndStampOrigin` | internal/controller/storagemigplan/controller.go:267-293 | an end stamp comes from a reconcile since whose read nobody has stamped a start |
| `RefreshHandshake.SidesAgree` | internal/controller/storagemigplan/controller.go:267-286 | the plan side stamps an end exactly while there is none or it is not after the start, which is exactly while the waiting side waits |
| `RefreshHandshake.UnreadableStamps` | internal/controller/storagemigplan/controller.go:267-286 | no start, no stamping; stamps that cannot be read are stamped over and never end a wait |
| `RefreshHandshake.ListsAreFreshIff` | internal/controller/storagemigplan/controller.go:158-179 | the lists are newer than a start stamp if and only if a reconcile that read after it also had its status write accepted |
| `RefreshHandshake.LeaveListsAreFreshIff` | internal/controller/storagemigplan/controller.go:145-179 | when a migration leaves, its lists are newer than the start stamp if and only if some reconcile read the plan after the stamp and had its status write accepted before that |
| `RefreshHandshake.ListsMayBeStale` | internal/controller/storagemigplan/controller.go:158-179 | a run in which a migration leaves the wait phase while the lists are older than its stamp, metadata being written first |
| `PlanNaming.GeneratedNameIsFixpoint` | internal/controller/storagemigplan/validation.go:410-429 | generating a destination name from a generated one gives the same name, also when names are shortened |
| `PlanNaming.OldSuffixIsReplaced` | internal/controller/storagemigplan/validation.go:422-429 | a suffix left by an earlier plan is replaced, not stacked |
| `PlanNaming.NewSuffixIsReplaced` | internal/controller/storagemigplan/validation.go:422-429 | so is "-new" |
| `PlanNaming.PlainNameIsExtended` | internal/controller/storagemigplan/validation.go:410-429 | a name that ends in neither is kept whole and extended |
| `PlanNaming.NamedOrRefused` | internal/controller/storagemigplan/validation.go:410-420 | a name in the spec is taken as it is; with neither name nor suffix there is none |
| `PlanLists.CreateStatusVM` | internal/controller/storagemigplan/validation.go:327-359 | the loop over targets computes the entry that RoutesAreSticky reasons about, with its empty and error outcomes |
| `PlanRecording.ComputeExactly` | internal/controller/storagemigplan/validation.go:327-408 | an entry is recorded if and only if the VM exists and every target's volume has an existing source; then, target by target, it is the claim the volume is on, or, once a migration tells, the one KubeVirt's first record of a move to that claim gives, with the destination given or generated |
| `PlanRecording.SourceClaimIff` | internal/controller/storagemigplan/validation.go:361-408 | the source found for a volume is exactly that one |
| `PlanRecording.EachVolumeItsOwn` | internal/controller/storagemigplan/validation.go:361-395 | before anything has started each target is recorded with the claim of the very volume it names |
| `PlanVerdicts.MergeExactly` | internal/controller/storagemigplan/validation.go:143-170 | what is computed now gives the targets; recorded sources stay unless what is computed agrees volume by volume; a VM is dropped only if nothing is computed and nothing was recorded |
| `PlanVerdicts.ExistingExactly` | internal/controller/storagemigplan/validation.go:265-286 | of several records of a VM the last counts, Invalid before Completed before Failed before InProgress before Ready |
| `PlanVerdicts.ListedExactly` | internal/controller/storagemigplan/validation.go:113-179 | an error-free validation before completion lists a spec VM if and only if it passed its check and has sources now or had some recorded: as ready or invalid before anything has started, as in progress once a migration tells |
| `PlanVerdicts.ReadyExactly` | internal/controller/storagemigplan/validation.go:485-529 | an entry is ready if and only if each target's class exists, or it names none and a default exists, and before anything has started no destination is its source; a ready entry has the default class where it named none, any other is invalid |
| `PlanLists.ExistingStatusVMMap` | internal/controller/storagemigplan/validation.go:265-286 | the map built from the lists holds, for each name, the entry listed last |
| `PlanLists.HasVMBeenSwapped` | internal/controller/storagemigplan/validation.go:304-325 | swapped if and only if the counts differ or some volume has another claim than recorded |
| `PlanLists.GetMigrationStatus` | internal/controller/storagemigplan/validation.go:544-568 | the first migration whose phase says anything decides, and not-started means that none does or the listing failed |
| `PlanLists.PlanReconciler.ValidateStorageMigrationPossible` | internal/controller/storagemigplan/validation.go:105-179 | rebuilds the lists; on failure only what had been rebuilt so far is left |
| `PlanLists.PlanReconciler.ValidatePVCs` | internal/controller/storagemigplan/validation.go:485-542 | splits Ready into Ready and Invalid; on failure Ready keeps its entries with the default classes filled in so far |
| `PlanLists.PlanReconciler.HealCompletedMigrations` | internal/controller/storagemigplan/validation.go:252-263 | fills an empty completed list from the spec and leaves any other alone |
| `PlanLists.PlanReconciler.UpdateReadyCompletedMigrations` | internal/controller/storagemigplan/controller.go:229-253 | performs the move that MoveConserves describes |
| `PlanPartition.ListsPartitionSpec` | internal/controller/storagemigplan/validation.go:113-179 | after an error-free reconcile on the not-completed path no VM is listed twice, within or across lists, and only spec VMs are listed |
| `PlanPartition.ReconcileEntries` | internal/controller/storagemigplan/validation.go:113-179 | each listed entry comes from one spec VM, with the sources and destinations computed or preserved for it |
| `PlanPartition.SplitReadyPartitions` | internal/controller/storagemigplan/validation.go:485-542 | checking PVCs splits Ready without losing, doubling or rerouting an entry |
| `PlanPartition.ChecksKeepRoutes` | internal/controller/storagemigplan/validation.go:485-542 | failing or not, checking edits ready entries in their storage classes only |
| `PlanPartition.MoveConserves` | internal/controller/storagemigplan/controller.go:229-253 | moving completed VMs conserves entries as a multiset, sources included, and moves exactly those the deciding migration completed |
| `PlanPartition.FailureForgetsTheRest` | internal/controller/storagemigplan/validation.go:113-139 | a reconcile that fails at a VM keeps entries of the VMs before it only |
| `PlanPartition.LastIsNewest` | internal/controller/storagemigplan/controller.go:255-265 | however ties are sorted, the deciding migration is the newest not Completed, or the newest of all when all are Completed |
| `PlanPartition.CompareIsTotalPreorder` | internal/controller/storagemigplan/controller.go:255-265 | the comparator is a total preorder |
| `PlanSticky.RoutesAreSticky` | internal/controller/storagemigplan/validation.go:113-179 | over any sequence of error-free reconciles that keep the VM listed, while its claims swap between source and destination or lookups find nothing, the recorded routes never change and stay index-aligned |
| `PlanRun.StoredRoutesAreSticky` | internal/controller/storagemigplan/controller.go:69-179 | in the stored plan, over every run of passes whose writes may fail either way, recorded routes and the suffix never change, if passes that store lists are error-free and keep the VM listed |
| `PlanRun.SuffixIsSetOnce` | internal/controller/storagemigplan/controller.go:117-121 | in every run the suffix never changes once stored, and no VM is listed without one |
| `PlanRun.FirstStoreRecords` | internal/controller/storagemigplan/validation.go:113-179 | the first time a VM is stored in a list, it is recorded under the suffix stored with it |
| `PlanSticky.ReconcileIsSticky` | internal/controller/storagemigplan/validation.go:113-179 | one reconcile keeps the routes, on the rebuilding and on the completed path |
| `PlanSticky.MergeKeepsRoutes` | internal/controller/storagemigplan/validation.go:143-170 | merging what is computed from a swapped, half-swapped or missing VM keeps every recorded source and destination |
| `PlanSticky.ComputeOnRoutes` | internal/controller/storagemigplan/validation.go:327-359 | what is computed from a swapped VM differs from the record only in which end of a route it calls the source |
| `PlanSticky.FirstRecording` | internal/controller/storagemigplan/validation.go:327-359 | a first recording is aligned with the spec and every destination is the spec's or the one generated from the source |
| `PlanCompletion.AllSpecVMsCompleted` | api/migrationcontroller/v1alpha1/virtualmachinestoragemigrationplan_types.go:141-167 | true if and only if completed names are as many as spec names, non-blank, distinct, and contain every spec name |
| `PlanCompletion.CompletionIsPermutation` | api/migrationcontroller/v1alpha1/virtualmachinestoragemigrationplan_types.go:140-167 | for non-empty distinct non-blank spec names, that is being a permutation of them |
| `PlanCompletion.CoverIsExactIff` | api/migrationcontroller/v1alpha1/virtualmachinestoragemigrationplan_types.go:140-167 | completed names list every spec VM exactly once if and only if the spec names are distinct |
| `PlanCompletion.RepeatedSpecNameMisleads` | api/migrationcontroller/v1alpha1/virtualmachinestoragemigrationplan_types.go:140-167 | a spec naming a VM twice counts as completed with another VM in its place |
| `PlanCompletion.PlanStatusShowsCompleted` | api/migrationcontroller/v1alpha1/virtualmachinestoragemigrationplan_types.go:171-188 | as above, and nothing listed anywhere else |
| `PlanCompletion.HealingCompletesExactly` | internal/controller/storagemigplan/validation.go:252-263 | over every run of reconciles with a Completed migration, a plan that began with no completed entry shows completed if and only if its other lists were empty; otherwise it never does |
| `PlanCompletion.HealedExactly` | internal/controller/storagemigplan/validation.go:252-263 | a healed entry has the spec's name and targets and no sources; a completed list that is not empty stays |
| `PlanCompletion.CompletionIsAbsorbing` | internal/controller/storagemigplan/controller.go:84-89 | a completed plan keeps its lists and suffix for ever, through failed writes and deletion, and no reconcile changes it before its deletion |
| `PlanCompletion.PlanController.Reconcile` | internal/controller/storagemigplan/controller.go:69-152 | one reconcile of the stored plan: skip, deletion branch or rebuild, then the two writes |
| `PlanCompletion.PlanController.PersistPlan` | internal/controller/storagemigplan/controller.go:158-179 | metadata first and only if changed, status only after it |
| `PlanCompletion.PassStoresExactly` | internal/controller/storagemigplan/controller.go:84-152 | which lists and which suffix a pass stores, write by write, and that they stay in every other case |
| `PlanCompletion.FinalizerExactly` | internal/controller/storagemigplan/controller.go:91-115 | the plan's finalizer goes only, and then does go, when the plan is being deleted and no migration is active; a pass over an unfinished plan puts it on |
| `PlanCompletion.StatusForLast` | internal/controller/multinamespacestoragemigplan/controller.go:366-377 | the status taken for a namespace is that of the last entry of its name that has one |
| `PlanCompletion.MultiPlanCompletedByStatus` | internal/controller/multinamespacestoragemigplan/controller.go:366-390 | true if and only if there are namespaces and the last recorded status of each shows its plan completed |
| `PlanCompletion.IsMultiPlanCompleted` | internal/controller/multinamespacestoragemigplan/controller.go:399-416 | true if and only if recorded status and child plan of every namespace both show completed; an error only for a child that could not be read |
| `PlanCompletion.CompletedNamespaceIsExact` | internal/controller/multinamespacestoragemigplan/controller.go:392-397 | in each namespace completed means a permutation of its VMs and nothing else listed |
| `Conditions.ConditionsRefineMap` | api/migrationcontroller/v1alpha1/conditions.go:197-229 | from unique types, any sequence of set and delete operations keeps types unique, acts as on a map from type to condition, and an equal set keeps the timestamp |
| `Conditions.ContentIgnoresClock` | api/migrationcontroller/v1alpha1/conditions.go:73-92 | what conditions say after any operations does not depend on when they were made |
| `Conditions.StatusChangedExactly` | internal/controller/storagemigplan/controller.go:158-163 | a status is written if and only if it differs in something other than condition timestamps |
| `Conditions.UnchangedExactly` | internal/controller/storagemigplan/controller.go:158-163 | nothing is written if and only if the rest is equal and, position by position, type, status, reason, category and message are |
| `Conditions.SetExactly` | api/migrationcontroller/v1alpha1/conditions.go:73-92 | after setting, the type's condition says what was set in all five fields, keeping its time if and only if it said so before; other types are untouched |
| `Conditions.SetInPlace` | api/migrationcontroller/v1alpha1/conditions.go:197-209 | positions are kept and a new type goes to the end |
| `Conditions.RepeatedPassesStopWriting` | api/migrationcontroller/v1alpha1/conditions.go:158-166 | passes making the same operations, at whatever times, cause no status write after the second |
| `Conditions.SecondPassWritesIff` | api/migrationcontroller/v1alpha1/conditions.go:158-166 | the second of two equal passes causes a status write if and only if the operations do not keep the order of types the first one left |
| `Conditions.SecondPassMayWrite` | api/migrationcontroller/v1alpha1/conditions.go:158-166 | the second such pass may still cause one, because a deleted condition comes back at the end |
| `Conditions.Collection.FindCondition` | api/migrationcontroller/v1alpha1/conditions.go:119-143 | the index of the first condition of the type, or the length |
| `Conditions.Collection.SetCondition` | api/migrationcontroller/v1alpha1/conditions.go:197-209 | updates in place, unless equal, or appends |
| `Conditions.Collection.DeleteCondition` | api/migrationcontroller/v1alpha1/conditions.go:211-229 | keeps the other conditions in order |
| `Conditions.Collection.HasCondition` | api/migrationcontroller/v1alpha1/conditions.go:232-244 | all the types are present and true, and there is at least one |
| `Conditions.Collection.HasAnyCondition` | api/migrationcontroller/v1alpha1/conditions.go:247-260 | some of the types is present and true |
| `Conditions.Collection.HasConditionCategory` | api/migrationcontroller/v1alpha1/conditions.go:263-280 | some true condition is of one of the categories |
| `Conditions.Collection.SetReady` | api/migrationcontroller/v1alpha1/conditions.go:304-315 | sets or deletes Ready |
| `Conditions.Collection.SetReconcileFailed` | api/migrationcontroller/v1alpha1/conditions.go:329-337 | afterwards not ready and with a critical condition, whatever was there |
| `Conditions.Collection.CopyConditionTimestampsFrom` | api/migrationcontroller/v1alpha1/conditions.go:160-166 | each condition takes the time of the other list's condition of its type, also when the list is copied onto itself |
| `ChildOwnership.UnlabelledChildSurvives` | internal/controller/multinamespacestoragemig/controller.go:92-181 | in every run of any number of parents, a child without the parent-UID label is neither deleted nor marked by any pass |
| `ChildOwnership.NoChildWithoutFinalizer` | internal/controller/multinamespacestoragemig/controller.go:215-243 | in every run, whatever calls fail, once a parent's finalizer is gone no child carries its UID, and none ever does again |
| `ChildOwnership.PassEffect` | internal/controller/multinamespacestoragemig/controller.go:92-243 | a pass touches its own children and, at its plan's keys, other parents' children; removing the finalizer implies that no owned child is left |
| `ChildOwnership.PassProgress` | internal/controller/multinamespacestoragemig/controller.go:130-172 | each pass without error or conflict raises the owned namespaces by one or ends with all owned and a sorted status listing each namespace once; a reported conflict is real |
| `ChildOwnership.StatusExactly` | internal/controller/multinamespacestoragemig/controller.go:106-190 | what the stored status says after a pass: the conflict condition exactly after a conflict, the missing plan exactly when it is missing, nothing new after making a child or an error |
| `ChildOwnership.DeletionEnds` | internal/controller/multinamespacestoragemig/controller.go:215-243 | when calls go well one pass over a parent being deleted deletes all its children and takes the finalizer off |
| `ChildOwnership.OwnershipConverges` | internal/controller/multinamespacestoragemig/controller.go:130-172 | undisturbed passes, more than there are missing namespaces, end with all owned and listed |
| `ChildOwnership.VisitTouches` | internal/controller/multinamespacestoragemig/controller.go:132-168 | visiting a namespace replaces only a child labelled by another parent |
| `ChildOwnership.AdoptTouches` | internal/controller/multinamespacestoragemig/controller.go:270-320 | creating a child never deletes an unlabelled or an own child, and reports a conflict only for an unlabelled one |
| `MultiNamespace.MultiNamespaceReconciler.Reconcile` | internal/controller/multinamespacestoragemig/controller.go:79-193 | one pass, call by call: finalizer, plan, loop, status |
| `MultiNamespace.MultiNamespaceReconciler.RunFinalizer` | internal/controller/multinamespacestoragemig/controller.go:215-243 | deletes owned children, and drops the finalizer only when a second listing is empty |
| `MultiNamespace.MultiNamespaceReconciler.CreateNamespacedMigration` | internal/controller/multinamespacestoragemig/controller.go:270-320 | create, and on an existing child adopt, refuse or replace it |
| `MultiNamespace.MultiNamespaceReconciler.VisitNamespaces` | internal/controller/multinamespacestoragemig/controller.go:132-168 | the loop stops at the first namespace it has to act on |
| `NamespaceOrder.SortIsDetermined` | internal/controller/multinamespacestoragemig/controller.go:169-171 | with distinct names every sort gives the same status list |
| `NamespaceOrder.Sorted` | internal/controller/multinamespacestoragemig/controller.go:169-171 | sorted, and a permutation |
| `NamespaceOrder.BeforeIsDictionaryOrder` | internal/controller/multinamespacestoragemig/controller.go:169-171 | the order is that of a dictionary |
| `Objects.AddFinalizer` | api/migrationcontroller/v1alpha1/virtualmachinestoragemigration_types.go:148-154 | the finalizer is present afterwards and nothing else changes |
| `Objects.RemoveFinalizer` | api/migrationcontroller/v1alpha1/virtualmachinestoragemigration_types.go:156-163 | other finalizers stay; the finalizer is gone if it was there once |

## Left out

- Task: pod and VMIM garbage collection is one opaque answer (done or not yet); progress scraping is an opaque string; conditions, events and log lines of a migration are left out.
- Task: a nil dereference is an error of the pass; in a stored state it is a pass whose writes were lost.
- RecoverCorruptedSourcePVCs: the repaired sources are returned, not written through the slice shared with the cached plan.
- VolumeRewrite: a volume has one kind of source, as KubeVirt admits it.
- LiveMigrateCrashSafe: size, access mode, volume mode and annotations of destination DataVolumes are left out.
- SourceCleanupIsSafe: its condition is sufficient only; SourceCleanupInUseIff is exact.
- CancelCleanupIsSafe: the environment edits no VM specs, creates no VMs and keeps the plan's recorded moves. This also excludes a second migration of the same plan, which nothing in the code refuses and which could move a VM back onto a destination the first one is deleting.
- CancelingConverges: only VMIs change between its two passes; CancelingConvergesInRuns lifts that. Neither claims anything while calls fail or a VMIM is active.
- PlanDeletionNeverCancels: nothing is said about progress while the plan is being deleted, when lists and refresh stand still.
- PlanDeletion.HasActiveMigrations: the listing is a parameter; the code lists migrations by plan name in all namespaces, so those of a plan of the same name elsewhere count as the plan's, here and in LastIsNewest.
- RoutesAreSticky: for reconciles without errors that keep the VM listed; failing ones forget entries (FailureForgetsTheRest), and so does healing, whose entries have no sources.
- RoutesAreSticky: naming.GetName is taken by contract (base-suffix when it fits, else a name within 63 octets ending in -suffix); the library is not part of this model.
- ListsPartitionSpec: the KubeVirt installation, version and feature-gate checks, which can skip the rebuilding, appear only as one flag of PlanController.Reconcile; per-VM checks are an oracle.
- ValidatePVCs: the filesystem content-type check and all condition texts are left out; neither changes the lists.
- PlanCompletion.PlanController.Reconcile: conditions and annotations of the stored plan are left out; Conditions and RefreshHandshake model them on their own.
- PlanCompletion.PlanController.PersistPlan: metadata is reduced to the finalizers; a pass that changes annotations only writes metadata that is not visible there.
- NoChildWithoutFinalizer: listings are not stale, nobody removes the parent's finalizer by hand, and nobody puts a live parent's UID on a child; single reads may be stale.
- UnlabelledChildSurvives: a pass is atomic, so a child replaced by another of the same name between a read and a delete is not covered.
- The multi-namespace plan controller apart from its completion checks: its child loop and finalizer are those of the migrations, and it replaces unlabelled children too; retention policy inheritance.
- Conditions: the nested copy of timestamps for the plans of a multi-namespace status.
- Stale caches beyond the above, watches and event mapping, generated clients, TLS, metrics and deployment files.
