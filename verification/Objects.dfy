/** The cluster objects the controllers read and write, reduced to the fields they look at. */
module Objects {
  import opened Basics

  // ----- VirtualMachine -----

  /** A volume has exactly one source; every source that names no claim is OtherSource. */
  datatype VolumeSource = PVCSource(claim: string) | DVSource(dataVolume: string) | OtherSource

  datatype Volume = Volume(name: string, source: VolumeSource)

  datatype ClassRef = ClassRef(storageClass: Option<string>)

  datatype DVTemplate = DVTemplate(name: string, storage: Option<ClassRef>, pvc: Option<ClassRef>)

  /** One entry of status.volumeUpdateState.volumeMigrationState.migratedVolumes. */
  datatype MigratedVolume = MigratedVolume(source: Option<string>, destination: Option<string>)

  datatype UpdateStrategy = Unset | Migration | Replacement

  /** `liveMigratable` folds the readiness and condition checks made on a running VM. */
  datatype VM = VM(
    name: string,
    volumes: seq<Volume>,
    templates: seq<DVTemplate>,
    strategy: UpdateStrategy,
    migrated: seq<MigratedVolume>,
    liveMigratable: bool)

  /** The claim a volume refers to, "" when it refers to none. */
  function ClaimName(v: Volume): string {
    match v.source
    case DVSource(n) => n
    case PVCSource(c) => c
    case OtherSource => ""
  }

  function VolumeNames(vs: seq<Volume>): seq<string> {
    seq(|vs|, i requires 0 <= i < |vs| => vs[i].name)
  }

  predicate HasVolume(vm: VM, volume: string) {
    exists i :: 0 <= i < |vm.volumes| && vm.volumes[i].name == volume
  }

  /** The VM's spec names the claim, through a volume or through a DataVolumeTemplate. */
  predicate References(vm: VM, claim: string) {
    || (exists i :: 0 <= i < |vm.volumes| && ClaimName(vm.volumes[i]) == claim)
    || (exists i :: 0 <= i < |vm.templates| && vm.templates[i].name == claim)
  }

  // ----- Plan -----

  datatype SourcePVC = SourcePVC(volumeName: string, name: string, namespace: string)

  datatype TargetPVC = TargetPVC(volumeName: string, destination: Option<string>, storageClass: Option<string>)

  /** A virtual machine as recorded in one of the plan's status lists. */
  datatype PlanVM = PlanVM(name: string, targets: seq<TargetPVC>, sources: seq<SourcePVC>)

  // ----- Migration -----

  datatype Phase =
    | NoPhase
    | Started
    | RefreshStorageMigrationPlan
    | WaitForStorageMigrationPlanRefreshCompletion
    | BeginLiveMigration
    | WaitForLiveMigrationToComplete
    | LiveMigrationFailed
    | CleanupMigrationResources
    | Canceling
    | CleanupCancelledMigrations
    | Canceled
    | Completed

  datatype Running = Running(name: string, progress: string)

  function RunningNames(rs: seq<Running>): seq<string> {
    seq(|rs|, i requires 0 <= i < |rs| => rs[i].name)
  }

  const MIGRATION_FINALIZER := "virtualmachinestoragemigration.kubevirt.io/finalizer"

  const PLAN_FINALIZER := "virtualmachinestoragemigrationplan.kubevirt.io/finalizer"

  function AddFinalizer(finalizers: seq<string>, f: string): (r: seq<string>)
    ensures f in r && SetOf(r) == SetOf(finalizers) + {f}
  {
    if f in finalizers then finalizers else finalizers + [f]
  }

  /** Removes the first occurrence only, as the slice surgery in the controllers does. */
  function RemoveFinalizer(finalizers: seq<string>, f: string): (r: seq<string>)
    ensures forall g :: g != f ==> (g in r <==> g in finalizers)
    ensures Distinct(finalizers) ==> f !in r
  {
    if finalizers == [] then []
    else if finalizers[0] == f then finalizers[1..]
    else [finalizers[0]] + RemoveFinalizer(finalizers[1..], f)
  }
}
