/** What the log of one pass says about VMs: a VM it does not patch stays as it was, and a VM it patches ends off its
    sources, or off its destinations when the pass cancels. */
module PatchLog {
  import opened Basics
  import opened Objects
  import opened VolumeRewrite
  import opened Confinement
  import opened ClusterApi
  import opened TaskSpec
  import opened CrashPoints
  import opened PassEffects
  import opened MigrationRun

  predicate Patched(ws: seq<Write>, name: string) {
    exists k :: 0 <= k < |ws| && ws[k].PatchedVM? && ws[k].name == name
  }

  /** Put back on the sources when `back`, off the sources otherwise. */
  ghost predicate Off(back: bool, vm: VM, rs: seq<Route>) {
    if back then OffTargets(vm, rs) && OnSources(vm, rs) else OffSources(vm, rs)
  }

  // ----- What no rewrite changes -----

  /** The VM has the routed volume, with a claim, or a template named like one of the route's ends. */
  predicate CarriesRoute(vm: VM, r: Route) {
    || (exists k :: 0 <= k < |vm.volumes| && vm.volumes[k].name == r.volume && !vm.volumes[k].source.OtherSource?)
    || (exists k :: 0 <= k < |vm.templates| && vm.templates[k].name in {r.source, r.destination})
  }

  ghost predicate OnDestinations(vm: VM, rs: seq<Route>) {
    forall k, i :: 0 <= k < |vm.volumes| && 0 <= i < |rs| && vm.volumes[k].name == rs[i].volume && !vm.volumes[k].source.OtherSource?
      ==> ClaimName(vm.volumes[k]) == rs[i].destination
  }

  ghost predicate SameCarried(vm: VM, vm': VM, rs: seq<Route>) {
    forall i :: 0 <= i < |rs| ==> (CarriesRoute(vm, rs[i]) <==> CarriesRoute(vm', rs[i]))
  }

  lemma VolumeStaysCarried(v: Volume, v': Volume, rs: seq<Route>)
    requires VolumeRerouted(v, v', rs)
    ensures v'.name == v.name && (v'.source.OtherSource? <==> v.source.OtherSource?)
    ensures forall i :: 0 <= i < |rs| && rs[i].volume == v.name && !v.source.OtherSource? ==> ClaimName(v') == rs[i].destination
  {
    if i :| 0 <= i < |rs| && rs[i].volume == v.name {}
  }

  lemma TemplateStaysOnRoute(vm: VM, t: DVTemplate, t': DVTemplate, e: PlanVM, i: nat)
    requires Aligned(e) && DistinctRoutes(Routes(e)) && Disjoint(Routes(e)) && i < |Routes(e)| && TemplateRerouted(vm, t, t', e)
    ensures OnRoute(t'.name, Routes(e)[i]) <==> OnRoute(t.name, Routes(e)[i])
  {
    var rs := Routes(e);
    if m :| 0 <= m < |rs| && Moves(vm, t, rs[m]) {
      assert t'.name == rs[m].destination;
    }
  }

  lemma ReroutedStaysCarried(vm: VM, vm': VM, e: PlanVM)
    requires Aligned(e) && DistinctRoutes(Routes(e)) && Disjoint(Routes(e)) && Rerouted(vm, vm', e)
    ensures SameCarried(vm, vm', Routes(e))
    ensures OnDestinations(vm', Routes(e))
  {
    var rs := Routes(e);
    forall k | 0 <= k < |vm.volumes|
      ensures vm'.volumes[k].name == vm.volumes[k].name && (vm'.volumes[k].source.OtherSource? <==> vm.volumes[k].source.OtherSource?)
      ensures forall i :: 0 <= i < |rs| && rs[i].volume == vm.volumes[k].name && !vm.volumes[k].source.OtherSource? ==> ClaimName(vm'.volumes[k]) == rs[i].destination
    {
      VolumeStaysCarried(vm.volumes[k], vm'.volumes[k], rs);
    }
    forall i | 0 <= i < |rs| ensures CarriesRoute(vm, rs[i]) <==> CarriesRoute(vm', rs[i]) {
      forall k | 0 <= k < |vm.templates|
        ensures vm'.templates[k].name in {rs[i].source, rs[i].destination} <==> vm.templates[k].name in {rs[i].source, rs[i].destination}
      {
        TemplateStaysOnRoute(vm, vm.templates[k], vm'.templates[k], e, i);
      }
      CarriedAlike(vm, vm', rs[i]);
    }
  }

  lemma CarriedAlike(vm: VM, vm': VM, r: Route)
    requires |vm'.volumes| == |vm.volumes| && |vm'.templates| == |vm.templates|
    requires forall k :: 0 <= k < |vm.volumes| ==> vm'.volumes[k].name == vm.volumes[k].name && (vm'.volumes[k].source.OtherSource? <==> vm.volumes[k].source.OtherSource?)
    requires forall k :: 0 <= k < |vm.templates| ==> (vm'.templates[k].name in {r.source, r.destination} <==> vm.templates[k].name in {r.source, r.destination})
    ensures CarriesRoute(vm, r) <==> CarriesRoute(vm', r)
  {
  }

  lemma PrepareStaysCarried(vm: VM, e: PlanVM, table: Table)
    requires vm.name != "" && Aligned(e) && WellFormed(table) && Routes(e) == RoutesOf(table, vm.name)
    ensures Prepare(vm, e).Ok? && SameCarried(vm, Prepare(vm, e).value, Routes(e))
  {
    TableRoutesGood(table, vm.name);
    PrepareReroutes(vm, e);
    ReroutedStaysCarried(vm, Prepare(vm, e).value, e);
  }

  lemma FlippedStaysCarried(vm: VM, vm': VM, rs: seq<Route>)
    requires SameCarried(vm, vm', Flip(rs))
    ensures SameCarried(vm, vm', rs)
  {
    forall i | 0 <= i < |rs| ensures CarriesRoute(vm, rs[i]) <==> CarriesRoute(vm', rs[i]) {
      CarriesEitherWay(vm, rs[i]);
      CarriesEitherWay(vm', rs[i]);
      assert Flip(rs)[i] == Route(rs[i].volume, rs[i].destination, rs[i].source);
    }
  }

  lemma CarriesEitherWay(vm: VM, r: Route)
    ensures CarriesRoute(vm, r) <==> CarriesRoute(vm, Route(r.volume, r.destination, r.source))
  {
  }

  lemma StrategyStaysCarried(vm: VM, vm': VM, rs: seq<Route>)
    requires SameCarried(vm, vm', rs)
    ensures SameCarried(vm, vm'.(strategy := UpdateStrategy.Migration), rs)
  {
    var vm'' := vm'.(strategy := UpdateStrategy.Migration);
    assert vm''.volumes == vm'.volumes && vm''.templates == vm'.templates;
    forall i | 0 <= i < |rs| ensures CarriesRoute(vm', rs[i]) <==> CarriesRoute(vm'', rs[i]) {
    }
  }

  lemma OnFlippedDestinations(vm: VM, rs: seq<Route>)
    requires OnDestinations(vm, Flip(rs))
    ensures OnSources(vm.(strategy := UpdateStrategy.Migration), rs)
  {
    forall k, i | 0 <= k < |vm.volumes| && 0 <= i < |rs| && vm.volumes[k].name == rs[i].volume && !vm.volumes[k].source.OtherSource?
      ensures ClaimName(vm.volumes[k]) == rs[i].source
    {
      assert Flip(rs)[i].volume == rs[i].volume;
    }
  }

  lemma RevertPutsBack(vm: VM, e: PlanVM, table: Table)
    requires vm.name != "" && Aligned(e) && WellFormed(table) && Routes(e) == RoutesOf(table, vm.name)
    requires Confined(vm, Routes(e), table)
    ensures RevertedVM(vm, e).Ok? && SameCarried(vm, RevertedVM(vm, e).value, Routes(e)) && OnSources(RevertedVM(vm, e).value, Routes(e))
  {
    RevertMovesOffTargets(vm, e, table);
    var q := Revert(e).value;
    TableRoutesGood(table, vm.name);
    var vm' := Prepare(vm, q).value;
    ReroutedStaysCarried(vm, vm', q);
    FlippedStaysCarried(vm, vm', Routes(e));
    StrategyStaysCarried(vm, vm', Routes(e));
    OnFlippedDestinations(vm', Routes(e));
  }

  // ----- The log -----

  /** `now` is what the VMs have become along the log `ws`. */
  ghost predicate VMsTell(vms: map<string, VM>, now: map<string, VM>, ws: seq<Write>, table: Table, back: bool) {
    && ConfinedVMs(now, table) && now.Keys == vms.Keys
    && forall n :: n in vms ==>
         && SameCarried(vms[n], now[n], RoutesOf(table, n))
         && if Patched(ws, n) then Off(back, now[n], RoutesOf(table, n)) else now[n] == vms[n]
  }

  ghost predicate LogTells(vms: map<string, VM>, api: Api, table: Table, back: bool) {
    VMsTell(vms, api.cluster.vms, api.writes, table, back)
  }

  lemma OnePatchTells(vms: map<string, VM>, now: map<string, VM>, ws: seq<Write>, name: string, vm': VM, table: Table, back: bool)
    requires VMsTell(vms, now, ws, table, back) && name in vms
    requires vm'.name == name && Confined(vm', RoutesOf(table, name), table) && Off(back, vm', RoutesOf(table, name))
    requires SameCarried(now[name], vm', RoutesOf(table, name))
    ensures VMsTell(vms, now[name := vm'], ws + [PatchedVM(name, vm')], table, back)
  {
    ReplaceVM(now, name, vm', table);
    CarriedThrough(vms[name], now[name], vm', RoutesOf(table, name));
    PatchedAfter(ws, name, vm');
  }

  lemma PatchTells(vms: map<string, VM>, api: Api, name: string, vm': VM, table: Table, back: bool)
    requires LogTells(vms, api, table, back) && name in vms
    requires vm'.name == name && Confined(vm', RoutesOf(table, name), table) && Off(back, vm', RoutesOf(table, name))
    requires SameCarried(api.cluster.vms[name], vm', RoutesOf(table, name))
    ensures LogTells(vms, PatchVM(api, name, api.cluster.vms[name], vm').api, table, back)
  {
    OnePatchTells(vms, api.cluster.vms, api.writes, name, vm', table, back);
  }

  lemma CarriedThrough(vm: VM, vm1: VM, vm2: VM, rs: seq<Route>)
    requires SameCarried(vm, vm1, rs) && SameCarried(vm1, vm2, rs)
    ensures SameCarried(vm, vm2, rs)
  {
  }

  lemma PatchedAfter(ws: seq<Write>, name: string, vm: VM)
    ensures forall n :: Patched(ws + [PatchedVM(name, vm)], n) <==> n == name || Patched(ws, n)
  {
    forall n ensures Patched(ws + [PatchedVM(name, vm)], n) <==> n == name || Patched(ws, n) {
      PatchedAppend(ws, [PatchedVM(name, vm)], n);
      assert [PatchedVM(name, vm)][0].name == name;
    }
  }

  lemma PatchedAppend(ws: seq<Write>, vs: seq<Write>, name: string)
    ensures Patched(ws + vs, name) <==> Patched(ws, name) || Patched(vs, name)
  {
    if Patched(vs, name) {
      var k :| 0 <= k < |vs| && vs[k].PatchedVM? && vs[k].name == name;
      assert (ws + vs)[|ws| + k] == vs[k];
    }
    if Patched(ws, name) {
      var k :| 0 <= k < |ws| && ws[k].PatchedVM? && ws[k].name == name;
      assert (ws + vs)[k] == ws[k];
    }
  }

  lemma CreatesTell(vms: map<string, VM>, ns: string, api: Api, e: PlanVM, clone: bool, table: Table, back: bool)
    requires LogTells(vms, api, table, back)
    ensures LogTells(vms, CreateTargets(ns, api, e, 0, clone).api, table, back)
    ensures CreateTargets(ns, api, e, 0, clone).api.cluster.vms == api.cluster.vms
  {
    var ws := CreateTargetsEffect(ns, api, e, 0, clone);
    ReplayCreates(api.cluster, ws);
    forall n ensures Patched(api.writes + ws, n) <==> Patched(api.writes, n) {
      PatchedAppend(api.writes, ws, n);
    }
  }

  lemma SameLogTells(vms: map<string, VM>, api: Api, api': Api, table: Table, back: bool)
    requires LogTells(vms, api, table, back) && api'.cluster == api.cluster && api'.writes == api.writes
    ensures LogTells(vms, api', table, back)
  {
  }

  // ----- Begin -----

  lemma FetchTells(vms: map<string, VM>, api: Api, e: PlanVM, table: Table, back: bool)
    requires LogTells(vms, api, table, back)
    ensures LogTells(vms, FetchForMigration(api, e).api, table, back)
  {
    FetchEffect(api, e);
  }

  lemma LiveMigrateTells(vms: map<string, VM>, ns: string, api: Api, e: PlanVM, table: Table)
    requires WellFormed(table) && EntryMatches(e, table) && LogTells(vms, api, table, false)
    ensures LogTells(vms, LiveMigrate(ns, api, e).api, table, false)
  {
    var got := FetchForMigration(api, e);
    FetchEffect(api, e);
    FetchTells(vms, api, e, table, false);
    if got.result.Ok? {
      var vm := got.result.value;
      CreatesTell(vms, ns, got.api, e, false, table, false);
      var made := CreateTargets(ns, got.api, e, 0, false);
      PrepareMovesOffSources(vm, e, table);
      PrepareStaysCarried(vm, e, table);
      var vm' := Prepare(vm, e).value.(strategy := UpdateStrategy.Migration);
      StrategyStaysCarried(vm, Prepare(vm, e).value, Routes(e));
      SameSpecTransfer(Prepare(vm, e).value, vm', RoutesOf(table, e.name), table);
      if made.result.Ok? {
        PatchTells(vms, made.api, e.name, vm', table, false);
        assert LiveMigrate(ns, api, e) == PatchVM(made.api, e.name, vm, vm');
      }
    }
  }

  lemma OfflineMigrateTells(vms: map<string, VM>, ns: string, api: Api, e: PlanVM, table: Table)
    requires WellFormed(table) && EntryMatches(e, table) && LogTells(vms, api, table, false)
    ensures LogTells(vms, OfflineMigrate(ns, api, e).api, table, false)
  {
    var got := FetchForMigration(api, e);
    FetchEffect(api, e);
    FetchTells(vms, api, e, table, false);
    if got.result.Ok? {
      var vm := got.result.value;
      PrepareMovesOffSources(vm, e, table);
      PrepareStaysCarried(vm, e, table);
      PatchTells(vms, got.api, e.name, Prepare(vm, e).value, table, false);
      var patched := PatchVM(got.api, e.name, vm, Prepare(vm, e).value);
      if patched.result.Ok? {
        CreatesTell(vms, ns, patched.api, e, true, table, false);
      }
    }
  }

  lemma BeginOneTells(vms: map<string, VM>, ctx: Context, api: Api, e: PlanVM, table: Table)
    requires WellFormed(table) && EntryMatches(e, table) && LogTells(vms, api, table, false)
    ensures LogTells(vms, BeginOne(ctx, api, e).0, table, false)
  {
    var vmi := CheckVMI(api, e.name);
    SameLogTells(vms, api, vmi.api, table, false);
    if vmi.result.Ok? && vmi.result.value {
      var can := CanMigrate(vmi.api, e.name);
      SameLogTells(vms, api, can.api, table, false);
      LiveMigrateTells(vms, ctx.namespace, can.api, e, table);
      assert BeginOne(ctx, api, e).0 in {can.api, LiveMigrate(ctx.namespace, can.api, e).api};
    } else if vmi.result.Ok? {
      OfflineMigrateTells(vms, ctx.namespace, vmi.api, e, table);
      assert BeginOne(ctx, api, e).0 == OfflineMigrate(ctx.namespace, vmi.api, e).api;
    } else {
      assert BeginOne(ctx, api, e).0 == vmi.api;
    }
  }

  lemma {:induction false} BeginLoopTells(vms: map<string, VM>, ctx: Context, t: TaskState, rest: seq<PlanVM>, table: Table)
    requires WellFormed(table) && (forall e :: e in rest ==> EntryMatches(e, table)) && LogTells(vms, t.api, table, false)
    ensures LogTells(vms, BeginLoop(ctx, t, rest).state.api, table, false)
    decreases rest
  {
    if rest != [] {
      BeginOneTells(vms, ctx, t.api, rest[0], table);
      var (api, verdict) := BeginOne(ctx, t.api, rest[0]);
      match verdict {
        case BeginError =>
        case Skipped => BeginLoopTells(vms, ctx, t.(api := api), rest[1..], table);
        case Began => BeginLoopTells(vms, ctx, t.(api := api, running := t.running + [Running(rest[0].name, "")]), rest[1..], table);
      }
    }
  }

  // ----- Cancel -----

  lemma CancelVMTells(vms: map<string, VM>, ctx: Context, api: Api, name: string, table: Table)
    requires WellFormed(table) && PlanMatches(ctx.plan, table) && LogTells(vms, api, table, true)
    ensures LogTells(vms, CancelVM(ctx, api, name).api, table, true)
  {
    var r := GetVM(api, name);
    var found := FindEntry(Cancellable(ctx.plan), name);
    if r.result.Ok? && found.Some? {
      CancellableMatches(ctx.plan, table, name);
      RevertMovesOffTargets(r.result.value, found.value, table);
      RevertPutsBack(r.result.value, found.value, table);
      PatchTells(vms, r.api, name, RevertedVM(r.result.value, found.value).value, table, true);
    }
  }

  lemma CancelOneTells(vms: map<string, VM>, ctx: Context, api: Api, name: string, table: Table)
    requires WellFormed(table) && PlanMatches(ctx.plan, table) && LogTells(vms, api, table, true)
    ensures LogTells(vms, CancelOne(ctx, api, name).0, table, true)
  {
    var vmi := CheckVMI(api, name);
    SameLogTells(vms, api, vmi.api, table, true);
    if vmi.result.Ok? && vmi.result.value {
      var on := CheckOnSource(ctx, vmi.api, name);
      SameLogTells(vms, api, on.api, table, true);
      SameLogTells(vms, api, CheckActiveVMIM(ctx, on.api, name).api, table, true);
      CancelVMTells(vms, ctx, on.api, name, table);
      assert CancelOne(ctx, api, name).0 in {on.api, CheckActiveVMIM(ctx, on.api, name).api, CancelVM(ctx, on.api, name).api};
    } else if vmi.result.Ok? {
      CancelVMTells(vms, ctx, vmi.api, name, table);
      assert CancelOne(ctx, api, name).0 == CancelVM(ctx, vmi.api, name).api;
    } else {
      assert CancelOne(ctx, api, name).0 == vmi.api;
    }
  }

  lemma {:induction false} CancelLoopTells(vms: map<string, VM>, ctx: Context, t: TaskState, rest: seq<Running>, running: seq<Running>, cancelled: seq<string>,
                                           table: Table)
    requires WellFormed(table) && PlanMatches(ctx.plan, table) && LogTells(vms, t.api, table, true)
    ensures LogTells(vms, CancelLoop(ctx, t, rest, running, cancelled).state.api, table, true)
    decreases rest
  {
    if rest != [] {
      var name := rest[0].name;
      CancelOneTells(vms, ctx, t.api, name, table);
      var (api, verdict) := CancelOne(ctx, t.api, name);
      match verdict {
        case CancelError =>
        case StillRunning => CancelLoopTells(vms, ctx, t.(api := api), rest[1..], running + [rest[0]], cancelled, table);
        case NowCancelled => CancelLoopTells(vms, ctx, t.(api := api), rest[1..], running, cancelled + [name], table);
      }
    }
  }

  // ----- The other phases patch nothing -----

  ghost predicate NoPatches(ws: seq<Write>) {
    forall k :: 0 <= k < |ws| ==> !ws[k].PatchedVM?
  }

  ghost predicate OnlyDeletions(ws: seq<Write>) {
    forall k :: 0 <= k < |ws| ==> ws[k].DeletedDV? || ws[k].DeletedPVC?
  }

  lemma DeleteSourceOnlyDeletes(api: Api, s: SourcePVC)
    requires OnlyDeletions(api.writes)
    ensures OnlyDeletions(DeleteSource(api, s).api.writes) && DeleteSource(api, s).api.cluster.vms == api.cluster.vms
  {
    DeletesOnlyDelete(api, Key(s.namespace, s.name));
    DeletesOnlyDelete(DeleteDV(api, Key(s.namespace, s.name)).api, Key(s.namespace, s.name));
  }

  lemma DeletesOnlyDelete(api: Api, key: Key)
    requires OnlyDeletions(api.writes)
    ensures OnlyDeletions(DeleteDV(api, key).api.writes) && DeleteDV(api, key).api.cluster.vms == api.cluster.vms
    ensures OnlyDeletions(DeletePVC(api, key).api.writes) && DeletePVC(api, key).api.cluster.vms == api.cluster.vms
  {
  }

  lemma {:induction false} DeleteSourcesOnlyDelete(api: Api, rest: seq<SourcePVC>, seen: set<string>)
    requires OnlyDeletions(api.writes)
    ensures OnlyDeletions(DeleteSources(api, rest, seen).api.writes) && DeleteSources(api, rest, seen).api.cluster.vms == api.cluster.vms
    decreases rest
  {
    if rest != [] {
      if DedupKey(rest[0]) in seen {
        DeleteSourcesOnlyDelete(api, rest[1..], seen);
      } else {
        var r := DeleteSource(api, rest[0]);
        DeleteSourceOnlyDeletes(api, rest[0]);
        if r.result.Ok? {
          DeleteSourcesOnlyDelete(r.api, rest[1..], seen + {DedupKey(rest[0])});
        }
      }
    }
  }

  lemma {:induction false} DeleteTargetsOnlyDelete(ns: string, api: Api, targets: seq<TargetPVC>)
    requires OnlyDeletions(api.writes)
    ensures OnlyDeletions(DeleteTargets(ns, api, targets).api.writes) && DeleteTargets(ns, api, targets).api.cluster.vms == api.cluster.vms
    decreases targets
  {
    if targets != [] {
      if targets[0].destination.None? {
        DeleteTargetsOnlyDelete(ns, api, targets[1..]);
      } else if !api.Fails() {
        var key := Key(ns, targets[0].destination.value);
        var d := DeleteDV(api.Called(), key);
        DeleteTargetsOnlyDelete(ns, if key in api.cluster.dvs then d.api else api.Called(), targets[1..]);
      }
    }
  }

  lemma {:induction false} DeleteEntriesOnlyDelete(ns: string, api: Api, entries: seq<PlanVM>, name: string)
    requires OnlyDeletions(api.writes)
    ensures OnlyDeletions(DeleteEntries(ns, api, entries, name).api.writes) && DeleteEntries(ns, api, entries, name).api.cluster.vms == api.cluster.vms
    decreases entries
  {
    if entries != [] {
      if entries[0].name != name {
        DeleteEntriesOnlyDelete(ns, api, entries[1..], name);
      } else {
        DeleteTargetsOnlyDelete(ns, api, entries[0].targets);
        DeleteEntriesOnlyDelete(ns, DeleteTargets(ns, api, entries[0].targets).api, entries[1..], name);
      }
    }
  }

  lemma {:induction false} DeleteCancelledOnlyDeletes(ctx: Context, api: Api, cancelled: seq<string>)
    requires OnlyDeletions(api.writes)
    ensures OnlyDeletions(DeleteCancelled(ctx, api, cancelled).api.writes) && DeleteCancelled(ctx, api, cancelled).api.cluster.vms == api.cluster.vms
    decreases cancelled
  {
    if cancelled != [] {
      DeleteEntriesOnlyDelete(ctx.namespace, api, Cancellable(ctx.plan), cancelled[0]);
      DeleteCancelledOnlyDeletes(ctx, DeleteEntries(ctx.namespace, api, Cancellable(ctx.plan), cancelled[0]).api, cancelled[1..]);
    }
  }

  lemma OtherPhasesPatchNothing(ctx: Context, t: TaskState)
    requires t.api.writes == [] && t.phase != BeginLiveMigration && t.phase != Canceling && t.phase != WaitForLiveMigrationToComplete
    ensures NoPatches(RunPhase(ctx, t).state.api.writes) && RunPhase(ctx, t).state.api.cluster.vms == t.api.cluster.vms
  {
    match t.phase {
      case CleanupMigrationResources =>
        if ctx.plan.Some? {
          DeleteSourcesOnlyDelete(Leftovers(t.api).api, SourcesToDelete(ctx.plan.value.completed, t.completed), {});
        }
      case CleanupCancelledMigrations =>
        DeleteCancelledOnlyDeletes(ctx, Leftovers(t.api).api, t.cancelled);
      case _ =>
    }
  }

  /** Every pass: an unpatched VM is as it was; a patched one ends off its destinations if the pass ran the cancel
      handler, and off its sources if it ran any other. */
  lemma RunPhaseTells(ctx: Context, t: TaskState, table: Table)
    requires WellFormed(table) && PlanMatches(ctx.plan, table) && ConfinedVMs(t.api.cluster.vms, table) && t.api.writes == []
    ensures LogTells(t.api.cluster.vms, RunPhase(ctx, t).state.api, table, t.phase == Canceling)
  {
    var vms := t.api.cluster.vms;
    match t.phase {
      case BeginLiveMigration =>
        CancellableMatches(ctx.plan, table, "");
        BeginLoopTells(vms, ctx, t, Cancellable(ctx.plan), table);
      case Canceling =>
        CancelLoopTells(vms, ctx, t, t.running, [], [], table);
      case WaitForLiveMigrationToComplete =>
        WaitLoopLists(ctx, t, t.running, []);
      case _ =>
        OtherPhasesPatchNothing(ctx, t);
    }
  }
}
