/** Without API errors and active VMIMs, cancelling any running list is over after at most two passes. */
module CancelConvergence {
  import opened Basics
  import opened Objects
  import opened VolumeRewrite
  import opened Confinement
  import opened ClusterApi
  import opened TaskSpec
  import opened PassEffects
  import opened MigrationRun

  /** The VM still has every routed volume, and each carries a claim. */
  ghost predicate Carries(vm: VM, rs: seq<Route>) {
    forall i :: 0 <= i < |rs| ==> rs[i].volume != "" && CarriesVolume(vm.volumes, rs[i].volume)
  }

  ghost predicate CarriesVolume(volumes: seq<Volume>, volume: string) {
    exists k :: 0 <= k < |volumes| && volumes[k].name == volume && !volumes[k].source.OtherSource?
  }

  lemma {:induction false} SourceIsMatched(volumes: seq<Volume>, s: SourcePVC)
    requires s.volumeName != "" && s.name != ""
    requires exists k :: 0 <= k < |volumes| && volumes[k].name == s.volumeName && ClaimName(volumes[k]) == s.name
    requires forall k :: 0 <= k < |volumes| && volumes[k].name == s.volumeName ==> ClaimName(volumes[k]) in {"", s.name}
    ensures SourceMatched(volumes, s)
  {
    if !(volumes[0].name == s.volumeName && ClaimName(volumes[0]) == s.name) {
      var k :| 0 <= k < |volumes| && volumes[k].name == s.volumeName && ClaimName(volumes[k]) == s.name;
      assert volumes[1..][k - 1] == volumes[k];
      SourceIsMatched(volumes[1..], s);
    }
  }

  /** What the entry of a cancellable VM must offer: it is uncorrupted, aligned and not empty. */
  ghost predicate Cancelable(plan: Option<Plan>, vms: map<string, VM>, name: string, table: Table) {
    && name in vms && name in table && table[name] != []
    && FindEntry(Cancellable(plan), name).Some?
    && Carries(vms[name], table[name])
  }

  lemma ReroutedVolumes(vm: VM, vm': VM, e: PlanVM, i: nat)
    requires Aligned(e) && Rerouted(vm, vm', e) && i < |Routes(e)|
    ensures forall k :: 0 <= k < |vm.volumes| ==> vm'.volumes[k].name == vm.volumes[k].name
    ensures forall k :: 0 <= k < |vm.volumes| && vm.volumes[k].name == Routes(e)[i].volume ==>
      vm'.volumes[k] == vm.volumes[k].(source := Retarget(vm.volumes[k].source, Routes(e)[i].destination))
  {
    forall k | 0 <= k < |vm.volumes| ensures vm'.volumes[k].name == vm.volumes[k].name {
      assert VolumeRerouted(vm.volumes[k], vm'.volumes[k], Routes(e));
      if j :| 0 <= j < |Routes(e)| && Routes(e)[j].volume == vm.volumes[k].name {}
    }
  }

  lemma SourceCarried(volumes: seq<Volume>, volumes': seq<Volume>, s: SourcePVC)
    requires |volumes'| == |volumes| && s.volumeName != "" && s.name != "" && CarriesVolume(volumes, s.volumeName)
    requires forall k :: 0 <= k < |volumes| ==> volumes'[k].name == volumes[k].name
    requires forall k :: 0 <= k < |volumes| && volumes[k].name == s.volumeName ==> volumes'[k] == volumes[k].(source := Retarget(volumes[k].source, s.name))
    ensures SourceMatched(volumes', s) && CarriesVolume(volumes', s.volumeName)
  {
    var k :| 0 <= k < |volumes| && volumes[k].name == s.volumeName && !volumes[k].source.OtherSource?;
    assert volumes'[k].name == s.volumeName && ClaimName(volumes'[k]) == s.name;
    SourceIsMatched(volumes', s);
  }

  lemma CarriedAndOffTargets(vm: VM, e: PlanVM, entries: seq<PlanVM>)
    requires Aligned(e) && e.sources != [] && FindEntry(entries, e.name) == Some(e) && OffTargets(vm, Routes(e))
    requires forall i :: 0 <= i < |e.sources| ==> SourceMatched(vm.volumes, e.sources[i])
    ensures OnSourceVolumes(vm, entries, e.name)
  {
    assert forall i :: 0 <= i < |e.targets| ==> e.targets[i].destination.value == Routes(e)[i].destination;
  }

  /** A successful revert makes the on-source check true. */
  lemma RevertPutsOnSource(vm: VM, plan: Option<Plan>, table: Table)
    requires WellFormed(table) && PlanMatches(plan, table) && vm.name != "" && Confined(vm, RoutesOf(table, vm.name), table)
    requires vm.name in table && table[vm.name] != [] && FindEntry(Cancellable(plan), vm.name).Some? && Carries(vm, table[vm.name])
    ensures
      var e := FindEntry(Cancellable(plan), vm.name).value;
      RevertedVM(vm, e).Ok? && OnSourceVolumes(RevertedVM(vm, e).value, Cancellable(plan), vm.name) && Carries(RevertedVM(vm, e).value, table[vm.name])
  {
    CancellableMatches(plan, table, vm.name);
    var e, rs := FindEntry(Cancellable(plan), vm.name).value, table[vm.name];
    RevertMovesOffTargets(vm, e, table);
    var q := Revert(e).value;
    var vm' := RevertedVM(vm, e).value;
    forall i | 0 <= i < |e.sources|
      ensures SourceMatched(vm'.volumes, e.sources[i])
      ensures CarriesVolume(vm'.volumes, rs[i].volume)
    {
      assert rs[i].source == e.sources[i].name && rs[i].volume == e.sources[i].volumeName;
      assert Routes(q)[i] == Route(rs[i].volume, rs[i].destination, rs[i].source);
      ReroutedVolumes(vm, Prepare(vm, q).value, q, i);
      SourceCarried(vm.volumes, vm'.volumes, e.sources[i]);
    }
    CarriedAndOffTargets(vm', e, Cancellable(plan));
  }

  /** Everything a cancel pass needs so that no VM holds it up. */
  ghost predicate CanConverge(ctx: Context, api: Api, names: set<string>, table: Table) {
    && WellFormed(table) && PlanMatches(ctx.plan, table) && ConfinedVMs(api.cluster.vms, table) && api.faults == []
    && forall n :: n in names ==> Cancelable(ctx.plan, api.cluster.vms, n, table) && !HasActiveVMIM(api.cluster, n, ctx.created)
  }

  ghost predicate AllOnSource(ctx: Context, api: Api, names: set<string>) {
    forall n :: n in names ==> n in api.cluster.vms && OnSourceVolumes(api.cluster.vms[n], Cancellable(ctx.plan), n)
  }

  /** One VM: it never fails, it leaves the VM on its sources, and it reports cancelled if the VM was there already. */
  lemma CancelOneConverges(ctx: Context, api: Api, name: string, names: set<string>, done: set<string>, table: Table)
    requires CanConverge(ctx, api, names, table) && name in names && done <= names && AllOnSource(ctx, api, done)
    ensures
      var (api', verdict) := CancelOne(ctx, api, name);
      && verdict != CancelError
      && (name in done ==> verdict == NowCancelled)
      && CanConverge(ctx, api', names, table)
      && AllOnSource(ctx, api', done + {name})
  {
    var vm := api.cluster.vms[name];
    RevertPutsOnSource(vm, ctx.plan, table);
    CancellableMatches(ctx.plan, table, name);
    var e := FindEntry(Cancellable(ctx.plan), name).value;
    RevertMovesOffTargets(vm, e, table);
    CancelOneOutcome(ctx, api, name);
    var api' := CancelOne(ctx, api, name).0;
    if api'.cluster != api.cluster {
      ConvergenceKept(ctx, api, api', name, RevertedVM(vm, e).value, names, done, table);
    }
  }

  lemma ConvergenceKept(ctx: Context, api: Api, api': Api, name: string, vm': VM, names: set<string>, done: set<string>, table: Table)
    requires CanConverge(ctx, api, names, table) && name in names && AllOnSource(ctx, api, done)
    requires api'.faults == [] && api'.cluster == api.cluster.(vms := api.cluster.vms[name := vm'])
    requires vm'.name == name && Confined(vm', RoutesOf(table, name), table)
    requires Cancelable(ctx.plan, api'.cluster.vms, name, table) && OnSourceVolumes(vm', Cancellable(ctx.plan), name)
    ensures CanConverge(ctx, api', names, table) && AllOnSource(ctx, api', done + {name})
  {
    ReplaceVM(api.cluster.vms, name, vm', table);
  }

  lemma CancelOneOutcome(ctx: Context, api: Api, name: string)
    requires api.faults == [] && name in api.cluster.vms && !HasActiveVMIM(api.cluster, name, ctx.created)
    requires FindEntry(Cancellable(ctx.plan), name).Some? && RevertedVM(api.cluster.vms[name], FindEntry(Cancellable(ctx.plan), name).value).Ok?
    ensures
      var (api', verdict) := CancelOne(ctx, api, name);
      var vm' := RevertedVM(api.cluster.vms[name], FindEntry(Cancellable(ctx.plan), name).value).value;
      var on := OnSourceVolumes(api.cluster.vms[name], Cancellable(ctx.plan), name);
      && api'.faults == []
      && api'.cluster == (if name in api.cluster.vmis && on then api.cluster else api.cluster.(vms := api.cluster.vms[name := vm']))
      && verdict == if name in api.cluster.vmis && !on then StillRunning else NowCancelled
  {
    assert api.Called() == api;
    CancelVMEffect(ctx, api, name);
  }

  /** The pass: it succeeds; VMs that were on their sources are all cancelled; those left over now are on theirs. */
  lemma {:induction false} CancelLoopConverges(ctx: Context, t: TaskState, rest: seq<Running>, running: seq<Running>, cancelled: seq<string>,
                                               names: set<string>, done: set<string>, table: Table)
    requires CanConverge(ctx, t.api, names, table) && done <= names && AllOnSource(ctx, t.api, done)
    requires SetOf(RunningNames(rest)) <= names && SetOf(RunningNames(running)) <= done
    ensures
      var p := CancelLoop(ctx, t, rest, running, cancelled);
      && p.ok && CanConverge(ctx, p.state.api, names, table)
      && AllOnSource(ctx, p.state.api, SetOf(RunningNames(p.state.running))) && SetOf(RunningNames(p.state.running)) <= names
      && (SetOf(RunningNames(rest)) <= done ==> p.state.running == running)
    decreases rest
  {
    if rest != [] {
      var name := rest[0].name;
      assert RunningNames(rest) == [name] + RunningNames(rest[1..]);
      assert name in SetOf(RunningNames(rest)) && SetOf(RunningNames(rest[1..])) <= SetOf(RunningNames(rest));
      var (api, verdict) := CancelOne(ctx, t.api, name);
      CancelOneConverges(ctx, t.api, name, names, done, table);
      if verdict == StillRunning {
        RunningNamesAppend(running, rest[0]);
        CancelLoopConverges(ctx, t.(api := api), rest[1..], running + [rest[0]], cancelled, names, done + {name}, table);
      } else {
        CancelLoopConverges(ctx, t.(api := api), rest[1..], running, cancelled + [name], names, done + {name}, table);
      }
    }
  }

  /** Canceling converges: for any running list, a first pass followed by a second one (VMIs may come and go in
      between) empties the list and reaches CleanupCancelledMigrations. */
  lemma CancelingConverges(ctx: Context, t: TaskState, api2: Api, table: Table)
    requires CanConverge(ctx, t.api, SetOf(RunningNames(t.running)), table)
    requires
      var first := CancelLoop(ctx, t, t.running, [], []).state;
      api2.faults == [] && api2.cluster == first.api.cluster.(vmis := api2.cluster.vmis)
    ensures
      var first := CancelLoop(ctx, t, t.running, [], []);
      var second := CancelLoop(ctx, first.state.(api := api2), first.state.running, [], []);
      && first.ok && second.ok && second.state.running == [] && second.state.phase == CleanupCancelledMigrations
  {
    var names := SetOf(RunningNames(t.running));
    assert RunningNames([]) == [] && SetOf<string>([]) == {};
    CancelLoopConverges(ctx, t, t.running, [], [], names, {}, table);
    var first := CancelLoop(ctx, t, t.running, [], []).state;
    var left := SetOf(RunningNames(first.running));
    assert CanConverge(ctx, api2, names, table) by {
      assert forall n :: HasActiveVMIM(api2.cluster, n, ctx.created) == HasActiveVMIM(first.api.cluster, n, ctx.created);
    }
    SecondPass(ctx, first.(api := api2), names, left, table);
  }

  lemma SecondPass(ctx: Context, t: TaskState, names: set<string>, left: set<string>, table: Table)
    requires CanConverge(ctx, t.api, names, table) && left == SetOf(RunningNames(t.running)) && left <= names && AllOnSource(ctx, t.api, left)
    ensures
      var second := CancelLoop(ctx, t, t.running, [], []);
      second.ok && second.state.running == [] && second.state.phase == CleanupCancelledMigrations
  {
    assert RunningNames([]) == [] && SetOf<string>([]) == {};
    CancelLoopConverges(ctx, t, t.running, [], [], names, left, table);
    CancelLoopLists(ctx, t, t.running, [], []);
  }
}
