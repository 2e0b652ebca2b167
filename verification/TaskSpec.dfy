/** One pass of the migration task, phase by phase, as functions of the state it starts from. */
module TaskSpec {
  import opened Basics
  import opened Objects
  import opened ClusterApi

  datatype Requeue = NoReQ | PollReQ

  datatype TaskState = TaskState(
    phase: Phase,
    running: seq<Running>,
    completed: seq<string>,
    cancelled: seq<string>,
    finalizers: seq<string>,
    api: Api,
    requeue: Requeue)

  /** A pass ends normally or with an error; either way the controller persists the state it left. */
  datatype Pass = Pass(state: TaskState, ok: bool)

  // ----- BeginLiveMigration -----

  datatype BeginVerdict = BeginError | Skipped | Began

  function BeginOne(ctx: Context, api: Api, e: PlanVM): (Api, BeginVerdict) {
    var vmi := CheckVMI(api, e.name);
    if vmi.result.Err? then (vmi.api, BeginError)
    else if vmi.result.value then
      var can := CanMigrate(vmi.api, e.name);
      if can.result.Err? then (can.api, BeginError)
      else if !can.result.value then (can.api, Skipped)
      else
        var r := LiveMigrate(ctx.namespace, can.api, e);
        (r.api, if r.result.Err? then BeginError else Began)
    else
      var r := OfflineMigrate(ctx.namespace, vmi.api, e);
      (r.api, if r.result.Err? then BeginError else Began)
  }

  /** A failing VM ends the pass; the VMs begun before it stay recorded. */
  function BeginLoop(ctx: Context, t: TaskState, rest: seq<PlanVM>): Pass
    decreases rest
  {
    if rest == [] then Pass(t.(phase := WaitForLiveMigrationToComplete), true)
    else
      var (api, verdict) := BeginOne(ctx, t.api, rest[0]);
      match verdict
      case BeginError => Pass(t.(api := api), false)
      case Skipped => BeginLoop(ctx, t.(api := api), rest[1..])
      case Began => BeginLoop(ctx, t.(api := api, running := t.running + [Running(rest[0].name, "")]), rest[1..])
  }

  /** A nil plan is dereferenced. */
  function Begin(ctx: Context, t: TaskState): Pass {
    if ctx.plan.None? then Pass(t, false) else BeginLoop(ctx, t, Cancellable(ctx.plan))
  }

  // ----- WaitForLiveMigrationToComplete -----

  datatype WaitVerdict = WaitError | Waiting(entry: Running) | Done

  function WaitOne(ctx: Context, api: Api, r: Running): (Api, WaitVerdict) {
    var vmi := CheckVMI(api, r.name);
    if vmi.result.Err? then (vmi.api, WaitError)
    else
      var done := Finished(ctx, vmi.api, r.name, !vmi.result.value);
      if done.result.Err? then (done.api, WaitError)
      else if done.result.value then (done.api, Done)
      else if !vmi.result.value then (done.api, Waiting(r))
      else if done.api.Fails() then (done.api.Called(), WaitError)
      else
        var progress := if r.name in done.api.cluster.progress then done.api.cluster.progress[r.name] else "";
        (done.api.Called(), Waiting(if progress != "" then r.(progress := progress) else r))
  }

  /** Completed VMs are appended as they are found; the running list is replaced only at the end. */
  function WaitLoop(ctx: Context, t: TaskState, rest: seq<Running>, running: seq<Running>): Pass
    decreases rest
  {
    if rest == [] then
      Pass(t.(running := running, requeue := PollReQ,
              phase := if running == [] then CleanupMigrationResources else t.phase), true)
    else
      var (api, verdict) := WaitOne(ctx, t.api, rest[0]);
      match verdict
      case WaitError => Pass(t.(api := api), false)
      case Waiting(entry) => WaitLoop(ctx, t.(api := api), rest[1..], running + [entry])
      case Done => WaitLoop(ctx, t.(api := api, completed := t.completed + [rest[0].name]), rest[1..], running)
  }

  // ----- Canceling -----

  datatype CancelVerdict = CancelError | StillRunning | NowCancelled

  function CancelOne(ctx: Context, api: Api, name: string): (Api, CancelVerdict) {
    var vmi := CheckVMI(api, name);
    if vmi.result.Err? then (vmi.api, CancelError)
    else if !vmi.result.value then
      var r := CancelVM(ctx, vmi.api, name);
      (r.api, if r.result.Err? then CancelError else NowCancelled)
    else
      var on := CheckOnSource(ctx, vmi.api, name);
      if on.result.Err? then (on.api, CancelError)
      else if on.result.value then
        var active := CheckActiveVMIM(ctx, on.api, name);
        (active.api, if active.result.Err? then CancelError else if active.result.value then StillRunning else NowCancelled)
      else
        var r := CancelVM(ctx, on.api, name);
        (r.api, if r.result.Err? then CancelError else StillRunning)
  }

  /** Both lists are replaced, and only by a pass that reaches the end. */
  function CancelLoop(ctx: Context, t: TaskState, rest: seq<Running>, running: seq<Running>, cancelled: seq<string>): Pass
    decreases rest
  {
    if rest == [] then
      Pass(t.(running := running, cancelled := cancelled, requeue := PollReQ,
              phase := if running == [] then CleanupCancelledMigrations else t.phase), true)
    else
      var (api, verdict) := CancelOne(ctx, t.api, rest[0].name);
      match verdict
      case CancelError => Pass(t.(api := api), false)
      case StillRunning => CancelLoop(ctx, t.(api := api), rest[1..], running + [rest[0]], cancelled)
      case NowCancelled => CancelLoop(ctx, t.(api := api), rest[1..], running, cancelled + [rest[0].name])
  }

  // ----- CleanupMigrationResources -----

  function Leftovers(api: Api): Reply<bool> {
    Reply(api.Called(), if api.Fails() then Err else Ok(api.cluster.leftoversGone))
  }

  /** getSourcePVCsForCompletedMigrations: the recorded sources of plan-completed VMs this migration completed. */
  function SourcesToDelete(entries: seq<PlanVM>, completed: seq<string>): seq<SourcePVC> {
    if entries == [] then []
    else (if entries[0].name in completed then entries[0].sources else []) + SourcesToDelete(entries[1..], completed)
  }

  function DedupKey(s: SourcePVC): string {
    s.namespace + "/" + s.name
  }

  /** The DataVolume if there is one, else the claim itself. */
  function DeleteSource(api: Api, s: SourcePVC): Reply<()> {
    var key := Key(s.namespace, s.name);
    var dv := DeleteDV(api, key);
    if dv.result.Err? then Reply(dv.api, Err)
    else if dv.result.value then Reply(dv.api, Ok(()))
    else
      var pvc := DeletePVC(dv.api, key);
      Reply(pvc.api, if pvc.result.Err? then Err else Ok(()))
  }

  function DeleteSources(api: Api, rest: seq<SourcePVC>, seen: set<string>): Reply<()>
    decreases rest
  {
    if rest == [] then Reply(api, Ok(()))
    else if DedupKey(rest[0]) in seen then DeleteSources(api, rest[1..], seen)
    else
      var r := DeleteSource(api, rest[0]);
      if r.result.Err? then r else DeleteSources(r.api, rest[1..], seen + {DedupKey(rest[0])})
  }

  function Cleanup(ctx: Context, t: TaskState): Pass {
    var r := Leftovers(t.api);
    if r.result.Err? then Pass(t.(api := r.api), false)
    else if !r.result.value then Pass(t.(api := r.api, requeue := PollReQ), true)
    else
      var done := t.(finalizers := RemoveFinalizer(t.finalizers, MIGRATION_FINALIZER), phase := Completed);
      if ctx.plan.Some? && ctx.plan.value.deleteSource then
        var sources := SourcesToDelete(ctx.plan.value.completed, t.completed);
        if t.completed != [] && sources == [] then Pass(t.(api := r.api, requeue := PollReQ), false)
        else
          var d := DeleteSources(r.api, sources, {});
          if d.result.Err? then Pass(t.(api := d.api), false) else Pass(done.(api := d.api), true)
      else Pass(done.(api := r.api), true)
  }

  // ----- CleanupCancelledMigrations -----

  function DeleteTargets(ns: string, api: Api, targets: seq<TargetPVC>): Reply<()>
    decreases targets
  {
    if targets == [] then Reply(api, Ok(()))
    else if targets[0].destination.None? then DeleteTargets(ns, api, targets[1..])
    else
      var key := Key(ns, targets[0].destination.value);
      if api.Fails() then Reply(api.Called(), Err)
      else if key !in api.cluster.dvs then DeleteTargets(ns, api.Called(), targets[1..])
      else
        var d := DeleteDV(api.Called(), key);
        if d.result.Err? then Reply(d.api, Err) else DeleteTargets(ns, d.api, targets[1..])
  }

  function DeleteEntries(ns: string, api: Api, entries: seq<PlanVM>, name: string): Reply<()>
    decreases entries
  {
    if entries == [] then Reply(api, Ok(()))
    else if entries[0].name != name then DeleteEntries(ns, api, entries[1..], name)
    else
      var r := DeleteTargets(ns, api, entries[0].targets);
      if r.result.Err? then r else DeleteEntries(ns, r.api, entries[1..], name)
  }

  function DeleteCancelled(ctx: Context, api: Api, cancelled: seq<string>): Reply<()>
    decreases cancelled
  {
    if cancelled == [] then Reply(api, Ok(()))
    else
      var r := DeleteEntries(ctx.namespace, api, Cancellable(ctx.plan), cancelled[0]);
      if r.result.Err? then r else DeleteCancelled(ctx, r.api, cancelled[1..])
  }

  /** Destinations are deleted even while leftovers remain; only the phase waits for them. */
  function CleanupCancelled(ctx: Context, t: TaskState): Pass {
    var r := Leftovers(t.api);
    if r.result.Err? then Pass(t.(api := r.api), false)
    else
      var d := DeleteCancelled(ctx, r.api, t.cancelled);
      if d.result.Err? then Pass(t.(api := d.api), false)
      else if !r.result.value then Pass(t.(api := d.api, requeue := PollReQ), true)
      else Pass(t.(api := d.api, phase := Canceled), true)
  }

  // ----- Refresh -----

  /** refreshCompletedVirtualMachines: the end stamp must be strictly after the start stamp. */
  function RefreshDone(start: Option<Stamp>, end: Option<Stamp>): Result<bool> {
    if start.None? || start.value.Malformed? then Err
    else if end.None? then Ok(false)
    else if end.value.Malformed? then Err
    else Ok(end.value.time > start.value.time)
  }

  function Refresh(ctx: Context, t: TaskState): Pass {
    if t.api.Fails() || ctx.plan.None? then Pass(t.(api := t.api.Called()), false)
    else
      var api := t.api.Called();
      if api.Fails() then Pass(t.(api := api.Called()), false)
      else Pass(t.(api := api.CalledWriting(api.cluster, StampedPlan), phase := WaitForStorageMigrationPlanRefreshCompletion), true)
  }

  function WaitRefresh(ctx: Context, t: TaskState): Pass {
    var t1 := t.(api := t.api.Called());
    if t.api.Fails() || ctx.plan.None? then Pass(t1, false)
    else
      match RefreshDone(ctx.plan.value.refreshStart, ctx.plan.value.refreshEnd)
      case Err => Pass(t1, false)
      case Ok(false) => Pass(t1.(requeue := PollReQ), true)
      case Ok(true) => Pass(t1.(phase := BeginLiveMigration), true)
  }

  // ----- Run -----

  predicate PlanHoldsDeletion(plan: Option<Plan>) {
    plan.Some? && plan.value.deleting && PLAN_FINALIZER in plan.value.finalizers
  }

  /** A deleting migration turns to Canceling unless it is past that point or the plan is holding its own deletion. */
  function MaybeCancel(ctx: Context, phase: Phase): Phase {
    if !ctx.deleting || phase in {Canceled, Completed, CleanupCancelledMigrations} then phase
    else if PlanHoldsDeletion(ctx.plan) then phase
    else Canceling
  }

  function EntryPhase(ctx: Context, phase: Phase): Phase {
    MaybeCancel(ctx, if phase == NoPhase then Started else phase)
  }

  function RunPhase(ctx: Context, t: TaskState): Pass {
    match t.phase
    case Started => Pass(t.(finalizers := AddFinalizer(t.finalizers, MIGRATION_FINALIZER), phase := RefreshStorageMigrationPlan), true)
    case RefreshStorageMigrationPlan => Refresh(ctx, t)
    case WaitForStorageMigrationPlanRefreshCompletion => WaitRefresh(ctx, t)
    case BeginLiveMigration => Begin(ctx, t)
    case WaitForLiveMigrationToComplete => WaitLoop(ctx, t, t.running, [])
    case CleanupMigrationResources => Cleanup(ctx, t)
    case Canceling => CancelLoop(ctx, t, t.running, [], [])
    case CleanupCancelledMigrations => CleanupCancelled(ctx, t)
    case Canceled => Pass(t.(finalizers := RemoveFinalizer(t.finalizers, MIGRATION_FINALIZER)), true)
    case _ => Pass(t, true)
  }

  function RunTask(ctx: Context, t: TaskState): Pass {
    RunPhase(ctx, t.(requeue := NoReQ, phase := EntryPhase(ctx, t.phase)))
  }
}
