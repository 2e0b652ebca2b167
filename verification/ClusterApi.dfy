/** The cluster a migration acts on, seen through an API whose every call may fail. */
module ClusterApi {
  import opened Basics
  import opened Objects
  import opened VolumeRewrite

  datatype Key = Key(namespace: string, name: string)

  datatype VMI = VMI(isRunning: bool)

  datatype VMIMPhase = Succeeded | Failed | InFlight

  datatype MigrationState = MigrationState(completed: bool, failed: bool)

  datatype VMIM = VMIM(vmiName: string, created: nat, phase: VMIMPhase, state: Option<MigrationState>)

  datatype DVPhase = DVSucceeded | DVWaitForFirstConsumer | DVPending

  datatype PVC = PVC(ownedByDataVolume: bool)

  /** VMs, VMIs and VMIMs are those of the migration's namespace. `progress` and `leftoversGone` are opaque facts:
      the scraped progress text, and whether completed launcher pods and VMIMs have been cleaned up. */
  datatype Cluster = Cluster(
    vms: map<string, VM>,
    vmis: map<string, VMI>,
    vmims: seq<VMIM>,
    dvs: map<Key, DVPhase>,
    pvcs: map<Key, PVC>,
    progress: map<string, string>,
    leftoversGone: bool)

  /** Every call that changed the cluster, in order. */
  datatype Write =
    | CreatedDV(key: Key, cloneOf: Option<string>)
    | PatchedVM(name: string, vm: VM)
    | DeletedDV(key: Key)
    | DeletedPVC(key: Key)
    | StampedPlan

  /** `faults` schedules the outcome of the calls to come: an exhausted schedule means no further failure. */
  datatype Api = Api(cluster: Cluster, faults: seq<bool>, writes: seq<Write>) {
    predicate Fails() {
      faults != [] && faults[0]
    }

    function Called(): Api {
      this.(faults := if faults == [] then [] else faults[1..])
    }

    function CalledWriting(c: Cluster, w: Write): Api {
      Called().(cluster := c, writes := writes + [w])
    }
  }

  datatype Reply<+T> = Reply(api: Api, result: Result<T>)

  // ----- Plan and migration as one pass sees them -----

  datatype Stamp = At(time: nat) | Malformed

  datatype Plan = Plan(
    deleting: bool,
    finalizers: seq<string>,
    ready: seq<PlanVM>,
    inProgress: seq<PlanVM>,
    completed: seq<PlanVM>,
    deleteSource: bool,
    refreshStart: Option<Stamp>,
    refreshEnd: Option<Stamp>)

  /** What stays fixed while a pass runs. */
  datatype Context = Context(namespace: string, created: nat, deleting: bool, plan: Option<Plan>)

  function Cancellable(plan: Option<Plan>): seq<PlanVM> {
    if plan.None? then [] else plan.value.ready + plan.value.inProgress
  }

  function FindEntry(entries: seq<PlanVM>, name: string): Option<PlanVM> {
    if entries == [] then None
    else if entries[0].name == name then Some(entries[0])
    else FindEntry(entries[1..], name)
  }

  lemma {:induction false} FindEntryAt(entries: seq<PlanVM>, name: string)
    ensures FindEntry(entries, name).None? <==> forall i :: 0 <= i < |entries| ==> entries[i].name != name
    ensures FindEntry(entries, name).Some? ==> FindEntry(entries, name).value in entries && FindEntry(entries, name).value.name == name
  {
    if entries != [] {
      FindEntryAt(entries[1..], name);
    }
  }

  // ----- Single calls -----

  function CheckVMI(api: Api, name: string): Reply<bool> {
    Reply(api.Called(), if api.Fails() then Err else Ok(name in api.cluster.vmis))
  }

  function GetVM(api: Api, name: string): Reply<VM> {
    Reply(api.Called(), if api.Fails() || name !in api.cluster.vms then Err else Ok(api.cluster.vms[name]))
  }

  function PatchVM(api: Api, name: string, vm: VM, vm': VM): Reply<()> {
    if vm == vm' then Reply(api, Ok(()))
    else if api.Fails() then Reply(api.Called(), Err)
    else Reply(api.CalledWriting(api.cluster.(vms := api.cluster.vms[name := vm']), PatchedVM(name, vm')), Ok(()))
  }

  function CreateDV(api: Api, key: Key, cloneOf: Option<string>): Reply<()> {
    if api.Fails() then Reply(api.Called(), Err)
    else if key in api.cluster.dvs then Reply(api.Called(), Ok(()))
    else Reply(api.CalledWriting(api.cluster.(dvs := api.cluster.dvs[key := DVPending]), CreatedDV(key, cloneOf)), Ok(()))
  }

  /** Ok(true) when a DataVolume was deleted, Ok(false) when there was none. */
  function DeleteDV(api: Api, key: Key): Reply<bool> {
    if api.Fails() then Reply(api.Called(), Err)
    else if key !in api.cluster.dvs then Reply(api.Called(), Ok(false))
    else Reply(api.CalledWriting(api.cluster.(dvs := api.cluster.dvs - {key}), DeletedDV(key)), Ok(true))
  }

  function DeletePVC(api: Api, key: Key): Reply<bool> {
    if api.Fails() then Reply(api.Called(), Err)
    else if key !in api.cluster.pvcs then Reply(api.Called(), Ok(false))
    else Reply(api.CalledWriting(api.cluster.(pvcs := api.cluster.pvcs - {key}), DeletedPVC(key)), Ok(true))
  }

  /** canVMStorageMigrate: a missing VM cannot; a VM that is not running can; otherwise its conditions decide. */
  function CanMigrate(api: Api, name: string): Reply<bool> {
    if api.Fails() then Reply(api.Called(), Err)
    else if name !in api.cluster.vms then Reply(api.Called(), Ok(false))
    else
      var api1 := api.Called();
      if api1.Fails() then Reply(api1.Called(), Err)
      else Reply(api1.Called(), Ok(
        (name in api.cluster.vmis && api.cluster.vmis[name].isRunning) ==> api.cluster.vms[name].liveMigratable))
  }

  // ----- liveMigrateVM and offlineMigrateVM -----

  /** ValidatePVCsMatchForVM: every recorded source volume exists on the VM. */
  function SourcesPresent(vm: VM, e: PlanVM): bool {
    forall i :: 0 <= i < |e.sources| ==> HasVolume(vm, e.sources[i].volumeName)
  }

  function FetchForMigration(api: Api, e: PlanVM): Reply<VM> {
    var r := GetVM(api, e.name);
    if r.result.Err? then r
    else
      var r1 := GetVM(r.api, e.name);
      if r1.result.Err? || !SourcesPresent(r1.result.value, e) then Reply(r1.api, Err) else r1
  }

  /** Size lookup and creation of the i-th destination DataVolume. */
  function CreateTarget(ns: string, api: Api, e: PlanVM, i: nat, clone: bool): Reply<()>
    requires i < |e.targets|
  {
    if |e.sources| <= i then Reply(api, Err)
    else
      var source := Key(e.sources[i].namespace, e.sources[i].name);
      if api.Fails() || source !in api.cluster.pvcs then Reply(api.Called(), Err)
      else
        var api1 := api.Called();
        var owned := api.cluster.pvcs[source].ownedByDataVolume;
        if owned && (api1.Fails() || Key(ns, source.name) !in api.cluster.dvs) then Reply(api1.Called(), Err)
        else if e.targets[i].destination.None? then Reply(api1, Err)
        else CreateDV(if owned then api1.Called() else api1, Key(ns, e.targets[i].destination.value),
                      if clone && e.sources[i].name != "" then Some(e.sources[i].name) else None)
  }

  function CreateTargets(ns: string, api: Api, e: PlanVM, i: nat, clone: bool): Reply<()>
    requires i <= |e.targets|
    decreases |e.targets| - i
  {
    if i == |e.targets| then Reply(api, Ok(()))
    else
      var r := CreateTarget(ns, api, e, i, clone);
      if r.result.Err? then r else CreateTargets(ns, r.api, e, i + 1, clone)
  }

  /** Destinations first, then the VM: the running VM needs its new disks. */
  function LiveMigrate(ns: string, api: Api, e: PlanVM): Reply<()> {
    var got := FetchForMigration(api, e);
    if got.result.Err? then Reply(got.api, Err)
    else
      var made := CreateTargets(ns, got.api, e, 0, false);
      if made.result.Err? then made
      else
        match Prepare(got.result.value, e)
        case Err => Reply(made.api, Err)
        case Ok(vm') => PatchVM(made.api, e.name, got.result.value, vm'.(strategy := Migration))
  }

  /** The VM first, then the clones: the stopped VM must not start on its sources while they are cloned. */
  function OfflineMigrate(ns: string, api: Api, e: PlanVM): Reply<()> {
    var got := FetchForMigration(api, e);
    if got.result.Err? then Reply(got.api, Err)
    else
      match Prepare(got.result.value, e)
      case Err => Reply(got.api, Err)
      case Ok(vm') =>
        var patched := PatchVM(got.api, e.name, got.result.value, vm');
        if patched.result.Err? then patched
        else CreateTargets(ns, patched.api, e, 0, true)
  }

  // ----- Completion checks -----

  function IsActive(v: VMIM, name: string, created: nat): bool {
    v.vmiName == name && v.created >= created && v.phase == InFlight
  }

  function HasActiveVMIM(cluster: Cluster, name: string, created: nat): bool {
    exists i :: 0 <= i < |cluster.vmims| && IsActive(cluster.vmims[i], name, created)
  }

  /** The first VMIM of this migration's lifetime that has not failed decides. */
  function LiveDone(vmims: seq<VMIM>, name: string, created: nat): bool {
    if vmims == [] then false
    else if vmims[0].vmiName == name && vmims[0].phase != Failed && vmims[0].created >= created then
      vmims[0].state.Some? && vmims[0].state.value.completed && !vmims[0].state.value.failed
    else LiveDone(vmims[1..], name, created)
  }

  function OfflineDone(ns: string, api: Api, targets: seq<TargetPVC>): Reply<bool>
    decreases targets
  {
    if targets == [] then Reply(api, Ok(true))
    else if targets[0].destination.None? then Reply(api, Err)
    else if api.Fails() then Reply(api.Called(), Err)
    else
      var key := Key(ns, targets[0].destination.value);
      if key !in api.cluster.dvs || api.cluster.dvs[key] == DVPending then Reply(api.Called(), Ok(false))
      else OfflineDone(ns, api.Called(), targets[1..])
  }

  /** A nil plan is dereferenced by the offline check. */
  function Finished(ctx: Context, api: Api, name: string, offline: bool): Reply<bool> {
    if offline then
      if ctx.plan.None? then Reply(api, Err)
      else
        match FindEntry(Cancellable(ctx.plan), name)
        case None => Reply(api, Ok(false))
        case Some(e) => OfflineDone(ctx.namespace, api, e.targets)
    else Reply(api.Called(), if api.Fails() then Err else Ok(LiveDone(api.cluster.vmims, name, ctx.created)))
  }

  // ----- Cancel checks -----

  function ReferencesTargets(vm: VM, e: PlanVM): bool {
    exists i :: 0 <= i < |e.targets| && e.targets[i].destination.Some? && References(vm, e.targets[i].destination.value)
  }

  /** The volume a source is recorded for (any volume when the record is blank) carries the source. */
  function SourceMatched(volumes: seq<Volume>, s: SourcePVC): bool {
    if volumes == [] then false
    else if s.volumeName != "" && volumes[0].name != s.volumeName then SourceMatched(volumes[1..], s)
    else if ClaimName(volumes[0]) == "" then SourceMatched(volumes[1..], s)
    else if ClaimName(volumes[0]) == s.name then true
    else if s.volumeName != "" then false
    else SourceMatched(volumes[1..], s)
  }

  function OnSourceVolumes(vm: VM, entries: seq<PlanVM>, name: string): bool {
    match FindEntry(entries, name)
    case None => false
    case Some(e) =>
      && e.sources != []
      && !ReferencesTargets(vm, e)
      && forall i :: 0 <= i < |e.sources| ==> SourceMatched(vm.volumes, e.sources[i])
  }

  function CheckOnSource(ctx: Context, api: Api, name: string): Reply<bool> {
    var r := GetVM(api, name);
    Reply(r.api, if r.result.Err? then Err else Ok(OnSourceVolumes(r.result.value, Cancellable(ctx.plan), name)))
  }

  function CheckActiveVMIM(ctx: Context, api: Api, name: string): Reply<bool> {
    Reply(api.Called(), if api.Fails() then Err else Ok(HasActiveVMIM(api.cluster, name, ctx.created)))
  }

  /** cancelLiveMigration */
  function CancelVM(ctx: Context, api: Api, name: string): Reply<()> {
    var r := GetVM(api, name);
    if r.result.Err? then Reply(r.api, Err)
    else
      match FindEntry(Cancellable(ctx.plan), name)
      case None => Reply(r.api, Err)
      case Some(e) =>
        match RevertedVM(r.result.value, e)
        case Err => Reply(r.api, Err)
        case Ok(vm') => PatchVM(r.api, name, r.result.value, vm')
  }
}
