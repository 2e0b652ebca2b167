/** The migration task as the controller runs it: an object whose handlers loop over lists, call the API and
    edit the owner's status in place. Every handler is tied to its function in TaskSpec. */
module MigrationTask {
  import opened Basics
  import opened Objects
  import opened VolumeRewrite
  import opened ClusterApi
  import opened TaskSpec

  /** vmReferencesTargetVolumes: a set of destination names, then two scans. */
  method VMReferencesTargetVolumes(vm: VM, e: PlanVM) returns (r: bool)
    ensures r == ReferencesTargets(vm, e)
  {
    var targets: set<string> := {};
    for i := 0 to |e.targets|
      invariant forall d :: d in targets <==> exists k :: 0 <= k < i && e.targets[k].destination == Some(d)
    {
      if e.targets[i].destination.Some? {
        targets := targets + {e.targets[i].destination.value};
      }
    }
    for i := 0 to |vm.volumes|
      invariant forall k :: 0 <= k < i ==> ClaimName(vm.volumes[k]) !in targets
    {
      if ClaimName(vm.volumes[i]) in targets {
        assert References(vm, ClaimName(vm.volumes[i]));
        return true;
      }
    }
    for i := 0 to |vm.templates|
      invariant forall k :: 0 <= k < i ==> vm.templates[k].name !in targets
    {
      if vm.templates[i].name in targets {
        assert References(vm, vm.templates[i].name);
        return true;
      }
    }
    return false;
  }

  method SourceOnVolume(volumes: seq<Volume>, s: SourcePVC) returns (r: bool)
    ensures r == SourceMatched(volumes, s)
  {
    for i := 0 to |volumes|
      invariant SourceMatched(volumes, s) == SourceMatched(volumes[i..], s)
    {
      if s.volumeName != "" && volumes[i].name != s.volumeName {
        continue;
      }
      var claim := ClaimName(volumes[i]);
      if claim == "" {
        continue;
      }
      if claim == s.name {
        return true;
      }
      if s.volumeName != "" {
        return false;
      }
    }
    return false;
  }

  method FindPlanVM(entries: seq<PlanVM>, name: string) returns (r: Option<PlanVM>)
    ensures r == FindEntry(entries, name)
  {
    for i := 0 to |entries|
      invariant FindEntry(entries, name) == FindEntry(entries[i..], name)
    {
      if entries[i].name == name {
        return Some(entries[i]);
      }
    }
    return None;
  }

  method VMOnSourceVolumes(vm: VM, entries: seq<PlanVM>, name: string) returns (r: bool)
    ensures r == OnSourceVolumes(vm, entries, name)
  {
    var found := FindPlanVM(entries, name);
    if found.None? || found.value.sources == [] {
      return false;
    }
    var e := found.value;
    var onTarget := VMReferencesTargetVolumes(vm, e);
    if onTarget {
      return false;
    }
    for i := 0 to |e.sources|
      invariant forall k :: 0 <= k < i ==> SourceMatched(vm.volumes, e.sources[k])
    {
      var matched := SourceOnVolume(vm.volumes, e.sources[i]);
      if !matched {
        return false;
      }
    }
    return true;
  }

  class Task {
    const ctx: Context
    var phase: Phase
    var running: seq<Running>
    var completed: seq<string>
    var cancelled: seq<string>
    var finalizers: seq<string>
    var api: Api
    var requeue: Requeue

    function State(): TaskState
      reads this
    {
      TaskState(phase, running, completed, cancelled, finalizers, api, requeue)
    }

    constructor (ctx: Context, t: TaskState)
      ensures this.ctx == ctx && State() == t
    {
      this.ctx := ctx;
      phase, running, completed, cancelled := t.phase, t.running, t.completed, t.cancelled;
      finalizers, api, requeue := t.finalizers, t.api, t.requeue;
    }

    // ----- Steps that only touch the API -----

    method VMIExists(name: string) returns (r: Result<bool>)
      modifies this`api
      ensures Reply(api, r) == CheckVMI(old(api), name)
    {
      r := if api.Fails() then Err else Ok(name in api.cluster.vmis);
      api := api.Called();
    }

    method GetVirtualMachine(name: string) returns (r: Result<VM>)
      modifies this`api
      ensures Reply(api, r) == GetVM(old(api), name)
    {
      r := if api.Fails() || name !in api.cluster.vms then Err else Ok(api.cluster.vms[name]);
      api := api.Called();
    }

    method PatchVMIfChanged(name: string, vm: VM, vm': VM) returns (r: Result<()>)
      modifies this`api
      ensures Reply(api, r) == PatchVM(old(api), name, vm, vm')
    {
      r := Ok(());
      if vm != vm' {
        if api.Fails() {
          api := api.Called();
          return Err;
        }
        api := api.CalledWriting(api.cluster.(vms := api.cluster.vms[name := vm']), PatchedVM(name, vm'));
      }
    }

    method CreateTargetDVs(e: PlanVM, clone: bool) returns (r: Result<()>)
      modifies this`api
      ensures Reply(api, r) == CreateTargets(ctx.namespace, old(api), e, 0, clone)
    {
      for i := 0 to |e.targets|
        modifies this`api
        invariant CreateTargets(ctx.namespace, old(api), e, 0, clone) == CreateTargets(ctx.namespace, api, e, i, clone)
      {
        var reply := CreateTarget(ctx.namespace, api, e, i, clone);
        api := reply.api;
        if reply.result.Err? {
          return Err;
        }
      }
      return Ok(());
    }

    method LiveMigrateVM(e: PlanVM) returns (r: Result<()>)
      modifies this`api
      ensures Reply(api, r) == LiveMigrate(ctx.namespace, old(api), e)
    {
      var got := FetchForMigration(api, e);
      api := got.api;
      if got.result.Err? {
        return Err;
      }
      var vm := got.result.value;
      r := CreateTargetDVs(e, false);
      if r.Err? {
        return;
      }
      var copy := PrepareVMForStorageMigration(vm, e);
      if copy.Err? {
        return Err;
      }
      r := PatchVMIfChanged(e.name, vm, copy.value.(strategy := Migration));
    }

    method OfflineMigrateVM(e: PlanVM) returns (r: Result<()>)
      modifies this`api
      ensures Reply(api, r) == OfflineMigrate(ctx.namespace, old(api), e)
    {
      var got := FetchForMigration(api, e);
      api := got.api;
      if got.result.Err? {
        return Err;
      }
      var vm := got.result.value;
      var copy := PrepareVMForStorageMigration(vm, e);
      if copy.Err? {
        return Err;
      }
      r := PatchVMIfChanged(e.name, vm, copy.value);
      if r.Err? {
        return;
      }
      r := CreateTargetDVs(e, true);
    }

    method IsVMOnSourceVolumes(name: string) returns (r: Result<bool>)
      modifies this`api
      ensures Reply(api, r) == CheckOnSource(ctx, old(api), name)
    {
      var vm := GetVirtualMachine(name);
      if vm.Err? {
        return Err;
      }
      var on := VMOnSourceVolumes(vm.value, Cancellable(ctx.plan), name);
      return Ok(on);
    }

    method HasActiveMigration(name: string) returns (r: Result<bool>)
      modifies this`api
      ensures Reply(api, r) == CheckActiveVMIM(ctx, old(api), name)
    {
      var failed := api.Fails();
      api := api.Called();
      if failed {
        return Err;
      }
      for i := 0 to |api.cluster.vmims|
        modifies {}
        invariant forall k :: 0 <= k < i ==> !IsActive(api.cluster.vmims[k], name, ctx.created)
      {
        var vmim := api.cluster.vmims[i];
        if vmim.vmiName != name || vmim.created < ctx.created || vmim.phase == Succeeded || vmim.phase == Failed {
          continue;
        }
        return Ok(true);
      }
      return Ok(false);
    }

    method CancelLiveMigration(name: string) returns (r: Result<()>)
      modifies this`api
      ensures Reply(api, r) == CancelVM(ctx, old(api), name)
    {
      var vm := GetVirtualMachine(name);
      if vm.Err? {
        return Err;
      }
      var found := FindPlanVM(Cancellable(ctx.plan), name);
      if found.None? {
        return Err;
      }
      var recovered := RecoverCorruptedSourcePVCs(vm.value, found.value);
      if recovered.Err? {
        return Err;
      }
      var revertPlan := RevertPlanVolumes(recovered.value);
      if revertPlan.Err? {
        return Err;
      }
      var copy := PrepareVMForStorageMigration(vm.value, revertPlan.value);
      if copy.Err? {
        return Err;
      }
      r := PatchVMIfChanged(name, vm.value, copy.value.(strategy := Migration));
    }

    // ----- Phase handlers -----

    method BeginVM(e: PlanVM) returns (verdict: BeginVerdict)
      modifies this`api
      ensures (api, verdict) == BeginOne(ctx, old(api), e)
    {
      var exists_ := VMIExists(e.name);
      if exists_.Err? {
        return BeginError;
      }
      var r: Result<()>;
      if exists_.value {
        var can := CanMigrate(api, e.name);
        api := can.api;
        if can.result.Err? {
          return BeginError;
        }
        if !can.result.value {
          return Skipped;
        }
        r := LiveMigrateVM(e);
      } else {
        r := OfflineMigrateVM(e);
      }
      return if r.Err? then BeginError else Began;
    }

    method HandleBeginLiveMigration() returns (ok: bool)
      modifies this
      ensures Pass(State(), ok) == Begin(ctx, old(State()))
    {
      if ctx.plan.None? {
        return false;
      }
      var entries := Cancellable(ctx.plan);
      for i := 0 to |entries|
        modifies this`api, this`running
        invariant BeginLoop(ctx, old(State()), entries) == BeginLoop(ctx, State(), entries[i..])
      {
        var verdict := BeginVM(entries[i]);
        match verdict {
          case BeginError => return false;
          case Skipped => continue;
          case Began => running := running + [Running(entries[i].name, "")];
        }
      }
      phase := WaitForLiveMigrationToComplete;
      return true;
    }

    method CheckRunningVM(vm: Running) returns (verdict: WaitVerdict)
      modifies this`api
      ensures (api, verdict) == WaitOne(ctx, old(api), vm)
    {
      var exists_ := VMIExists(vm.name);
      if exists_.Err? {
        return WaitError;
      }
      var done := Finished(ctx, api, vm.name, !exists_.value);
      api := done.api;
      if done.result.Err? {
        return WaitError;
      }
      if done.result.value {
        return Done;
      }
      if !exists_.value {
        return Waiting(vm);
      }
      var failed := api.Fails();
      api := api.Called();
      if failed {
        return WaitError;
      }
      var progress := if vm.name in api.cluster.progress then api.cluster.progress[vm.name] else "";
      return Waiting(if progress != "" then vm.(progress := progress) else vm);
    }

    method HandleWaitForLiveMigrationToComplete() returns (ok: bool)
      modifies this
      ensures Pass(State(), ok) == WaitLoop(ctx, old(State()), old(running), [])
    {
      var stillRunning: seq<Running> := [];
      for i := 0 to |running|
        modifies this`api, this`completed
        invariant WaitLoop(ctx, old(State()), old(running), []) == WaitLoop(ctx, State(), running[i..], stillRunning)
      {
        var verdict := CheckRunningVM(running[i]);
        match verdict {
          case WaitError => return false;
          case Waiting(entry) => stillRunning := stillRunning + [entry];
          case Done => completed := completed + [running[i].name];
        }
      }
      running := stillRunning;
      if |stillRunning| == 0 {
        phase := CleanupMigrationResources;
      }
      requeue := PollReQ;
      return true;
    }

    method CancelRunningVM(name: string) returns (verdict: CancelVerdict)
      modifies this`api
      ensures (api, verdict) == CancelOne(ctx, old(api), name)
    {
      var exists_ := VMIExists(name);
      if exists_.Err? {
        return CancelError;
      }
      if !exists_.value {
        var reverted := CancelLiveMigration(name);
        return if reverted.Err? then CancelError else NowCancelled;
      }
      var onSource := IsVMOnSourceVolumes(name);
      if onSource.Err? {
        return CancelError;
      }
      if onSource.value {
        var active := HasActiveMigration(name);
        return if active.Err? then CancelError else if active.value then StillRunning else NowCancelled;
      }
      var reverted := CancelLiveMigration(name);
      return if reverted.Err? then CancelError else StillRunning;
    }

    method HandleCanceling() returns (ok: bool)
      modifies this
      ensures Pass(State(), ok) == CancelLoop(ctx, old(State()), old(running), [], [])
    {
      var stillRunning: seq<Running> := [];
      var nowCancelled: seq<string> := [];
      for i := 0 to |running|
        modifies this`api
        invariant CancelLoop(ctx, old(State()), old(running), [], []) == CancelLoop(ctx, State(), running[i..], stillRunning, nowCancelled)
      {
        var verdict := CancelRunningVM(running[i].name);
        match verdict {
          case CancelError => return false;
          case StillRunning => stillRunning := stillRunning + [running[i]];
          case NowCancelled => nowCancelled := nowCancelled + [running[i].name];
        }
      }
      running := stillRunning;
      cancelled := nowCancelled;
      if |stillRunning| == 0 {
        phase := CleanupCancelledMigrations;
      }
      requeue := PollReQ;
      return true;
    }

    method DeleteSourceDataVolumesAndPVCs(sources: seq<SourcePVC>) returns (r: Result<()>)
      modifies this`api
      ensures Reply(api, r) == DeleteSources(old(api), sources, {})
    {
      var seen: set<string> := {};
      for i := 0 to |sources|
        modifies this`api
        invariant DeleteSources(old(api), sources, {}) == DeleteSources(api, sources[i..], seen)
      {
        var key := DedupKey(sources[i]);
        if key in seen {
          continue;
        }
        seen := seen + {key};
        var dv := DeleteDV(api, Key(sources[i].namespace, sources[i].name));
        api := dv.api;
        if dv.result.Err? {
          return Err;
        }
        if dv.result.value {
          continue;
        }
        var pvc := DeletePVC(api, Key(sources[i].namespace, sources[i].name));
        api := pvc.api;
        if pvc.result.Err? {
          return Err;
        }
      }
      return Ok(());
    }

    method HandleCleanupMigrationResources() returns (ok: bool)
      modifies this
      ensures Pass(State(), ok) == Cleanup(ctx, old(State()))
    {
      var cleaned := Leftovers(api);
      api := cleaned.api;
      if cleaned.result.Err? {
        return false;
      }
      if !cleaned.result.value {
        requeue := PollReQ;
        return true;
      }
      if ctx.plan.Some? && ctx.plan.value.deleteSource {
        var sources := SourcesToDelete(ctx.plan.value.completed, completed);
        if |completed| > 0 && |sources| == 0 {
          requeue := PollReQ;
          return false;
        }
        var deleted := DeleteSourceDataVolumesAndPVCs(sources);
        if deleted.Err? {
          return false;
        }
      }
      finalizers := RemoveFinalizer(finalizers, MIGRATION_FINALIZER);
      phase := Completed;
      return true;
    }

    method DeleteTargetDVs(targets: seq<TargetPVC>) returns (r: Result<()>)
      modifies this`api
      ensures Reply(api, r) == DeleteTargets(ctx.namespace, old(api), targets)
    {
      for i := 0 to |targets|
        modifies this`api
        invariant DeleteTargets(ctx.namespace, old(api), targets) == DeleteTargets(ctx.namespace, api, targets[i..])
      {
        if targets[i].destination.None? {
          continue;
        }
        var key := Key(ctx.namespace, targets[i].destination.value);
        if api.Fails() {
          api := api.Called();
          return Err;
        }
        api := api.Called();
        if key !in api.cluster.dvs {
          continue;
        }
        var d := DeleteDV(api, key);
        api := d.api;
        if d.result.Err? {
          return Err;
        }
      }
      return Ok(());
    }

    method CleanupCancelledMigrationResources() returns (r: Result<bool>)
      modifies this`api
      ensures
        var l := Leftovers(old(api));
        if l.result.Err? then Reply(api, r) == l
        else
          var d := DeleteCancelled(ctx, l.api, cancelled);
          Reply(api, r) == Reply(d.api, if d.result.Err? then Err else Ok(l.result.value))
    {
      var cleaned := Leftovers(api);
      api := cleaned.api;
      if cleaned.result.Err? {
        return Err;
      }
      var entries := Cancellable(ctx.plan);
      for i := 0 to |cancelled|
        modifies this`api
        invariant DeleteCancelled(ctx, cleaned.api, cancelled) == DeleteCancelled(ctx, api, cancelled[i..])
      {
        ghost var api0 := api;
        for j := 0 to |entries|
          modifies this`api
          invariant DeleteEntries(ctx.namespace, api0, entries, cancelled[i]) == DeleteEntries(ctx.namespace, api, entries[j..], cancelled[i])
        {
          if entries[j].name == cancelled[i] {
            var d := DeleteTargetDVs(entries[j].targets);
            if d.Err? {
              return Err;
            }
          }
        }
      }
      return Ok(cleaned.result.value);
    }

    /** One call of Run: settle the phase, then run its handler. */
    method Run() returns (ok: bool)
      modifies this
      ensures Pass(State(), ok) == RunTask(ctx, old(State()))
    {
      requeue := NoReQ;
      if phase == NoPhase {
        phase := Started;
      }
      if ctx.deleting && phase != Canceled && phase != Completed && phase != CleanupCancelledMigrations {
        if !(ctx.plan.Some? && ctx.plan.value.deleting && PLAN_FINALIZER in ctx.plan.value.finalizers) {
          phase := Canceling;
        }
      }
      ok := true;
      match phase {
        case Started =>
          finalizers := AddFinalizer(finalizers, MIGRATION_FINALIZER);
          phase := RefreshStorageMigrationPlan;
        case RefreshStorageMigrationPlan =>
          var p := Refresh(ctx, State());
          api, phase, ok := p.state.api, p.state.phase, p.ok;
        case WaitForStorageMigrationPlanRefreshCompletion =>
          var p := WaitRefresh(ctx, State());
          api, phase, requeue, ok := p.state.api, p.state.phase, p.state.requeue, p.ok;
        case BeginLiveMigration =>
          ok := HandleBeginLiveMigration();
        case WaitForLiveMigrationToComplete =>
          ok := HandleWaitForLiveMigrationToComplete();
        case CleanupMigrationResources =>
          ok := HandleCleanupMigrationResources();
        case Canceling =>
          ok := HandleCanceling();
        case CleanupCancelledMigrations =>
          var cleaned := CleanupCancelledMigrationResources();
          if cleaned.Err? {
            ok := false;
          } else if !cleaned.value {
            requeue := PollReQ;
          } else {
            phase := Canceled;
          }
        case Canceled =>
          finalizers := RemoveFinalizer(finalizers, MIGRATION_FINALIZER);
        case _ =>
      }
    }
  }
}
