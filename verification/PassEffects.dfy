/** What one step of a pass can do to the VMs and to the log of deletions. */
module PassEffects {
  import opened Basics
  import opened Objects
  import opened VolumeRewrite
  import opened Confinement
  import opened ClusterApi
  import opened CrashPoints
  import opened TaskSpec

  // ----- Plan entries -----

  ghost predicate EntryMatches(e: PlanVM, table: Table) {
    Aligned(e) && e.name in table && Routes(e) == table[e.name]
  }

  /** The plan's lists carry the recorded moves and nothing else; a healed completed entry has no sources. */
  ghost predicate PlanMatches(plan: Option<Plan>, table: Table) {
    plan.Some? ==>
      && (forall e :: e in plan.value.ready ==> EntryMatches(e, table))
      && (forall e :: e in plan.value.inProgress ==> EntryMatches(e, table))
      && (forall e :: e in plan.value.completed ==> EntryMatches(e, table) || e.sources == [])
  }

  lemma CancellableMatches(plan: Option<Plan>, table: Table, name: string)
    requires PlanMatches(plan, table)
    ensures forall e :: e in Cancellable(plan) ==> EntryMatches(e, table)
    ensures FindEntry(Cancellable(plan), name).Some? ==> EntryMatches(FindEntry(Cancellable(plan), name).value, table) && FindEntry(Cancellable(plan), name).value.name == name
  {
    FindEntryAt(Cancellable(plan), name);
  }

  // ----- VMs -----

  ghost predicate SameSpec(vm: VM, vm': VM) {
    vm'.name == vm.name && vm'.volumes == vm.volumes && vm'.templates == vm.templates
  }

  lemma SameSpecTransfer(vm: VM, vm': VM, rs: seq<Route>, table: Table)
    requires SameSpec(vm, vm')
    ensures Confined(vm, rs, table) ==> Confined(vm', rs, table)
    ensures OffSources(vm, rs) ==> OffSources(vm', rs)
    ensures OffTargets(vm, rs) ==> OffTargets(vm', rs)
  {
    assert forall v :: HasVolume(vm, v) <==> HasVolume(vm', v);
    assert forall c :: References(vm, c) <==> References(vm', c);
  }

  ghost predicate AllOffSources(names: set<string>, vms: map<string, VM>, table: Table) {
    forall n :: n in names && n in vms ==> OffSources(vms[n], RoutesOf(table, n))
  }

  ghost predicate AllOffTargets(names: set<string>, vms: map<string, VM>, table: Table) {
    forall n :: n in names && n in vms ==> OffTargets(vms[n], RoutesOf(table, n))
  }

  /** Replacing one VM by a confined one keeps every VM confined. */
  lemma ReplaceVM(vms: map<string, VM>, name: string, vm: VM, table: Table)
    requires ConfinedVMs(vms, table) && name in vms && vm.name == name && Confined(vm, RoutesOf(table, name), table)
    ensures ConfinedVMs(vms[name := vm], table)
  {
  }

  // ----- The log -----

  ghost predicate NoDeletes(ws: seq<Write>) {
    forall k :: 0 <= k < |ws| ==> !ws[k].DeletedDV? && !ws[k].DeletedPVC?
  }

  /** Only the VMs, the DataVolumes, the log and the fault schedule differ. */
  ghost predicate Steady(api: Api, api': Api) {
    api'.cluster == api.cluster.(vms := api'.cluster.vms, dvs := api'.cluster.dvs)
  }

  // ----- Migrating one VM -----

  /** After a migrate attempt the VM is as before or rewritten; after a successful one it is rewritten. */
  ghost predicate Migrated(api: Api, api': Api, e: PlanVM, done: bool) {
    && Steady(api, api') && (NoDeletes(api.writes) ==> NoDeletes(api'.writes))
    && ((!done && api'.cluster.vms == api.cluster.vms)
        || (&& e.name in api.cluster.vms && Prepare(api.cluster.vms[e.name], e).Ok?
            && e.name in api'.cluster.vms && api'.cluster.vms == api.cluster.vms[e.name := api'.cluster.vms[e.name]]
            && SameSpec(Prepare(api.cluster.vms[e.name], e).value, api'.cluster.vms[e.name])))
  }

  lemma CreateTargetsSteady(ns: string, api: Api, e: PlanVM, clone: bool)
    ensures
      var r := CreateTargets(ns, api, e, 0, clone);
      Steady(api, r.api) && r.api.cluster.vms == api.cluster.vms && (NoDeletes(api.writes) ==> NoDeletes(r.api.writes))
  {
    var ws := CreateTargetsEffect(ns, api, e, 0, clone);
    ReplayCreatesSteady(api.cluster, ws);
  }

  lemma {:induction false} ReplayCreatesSteady(c: Cluster, ws: seq<Write>)
    requires OnlyCreates(ws)
    ensures Replay(c, ws) == c.(dvs := Replay(c, ws).dvs)
  {
    if ws != [] {
      ReplayCreatesSteady(c, ws[..|ws| - 1]);
    }
  }

  lemma PatchMigrates(api: Api, api1: Api, e: PlanVM, vm': VM)
    requires Steady(api, api1) && api1.cluster.vms == api.cluster.vms && (NoDeletes(api.writes) ==> NoDeletes(api1.writes))
    requires e.name in api.cluster.vms && Prepare(api.cluster.vms[e.name], e).Ok? && SameSpec(Prepare(api.cluster.vms[e.name], e).value, vm')
    ensures
      var r := PatchVM(api1, e.name, api.cluster.vms[e.name], vm');
      Migrated(api, r.api, e, r.result.Ok?)
  {
  }

  lemma LiveMigrateEffect(ns: string, api: Api, e: PlanVM)
    ensures Migrated(api, LiveMigrate(ns, api, e).api, e, LiveMigrate(ns, api, e).result.Ok?)
  {
    var got := FetchForMigration(api, e);
    FetchEffect(api, e);
    if got.result.Ok? {
      CreateTargetsSteady(ns, got.api, e, false);
      var made := CreateTargets(ns, got.api, e, 0, false);
      if made.result.Ok? && Prepare(got.result.value, e).Ok? {
        var vm' := Prepare(got.result.value, e).value.(strategy := UpdateStrategy.Migration);
        PatchMigrates(api, made.api, e, vm');
        assert LiveMigrate(ns, api, e) == PatchVM(made.api, e.name, got.result.value, vm');
      }
    }
  }

  lemma MigratedThen(api: Api, api1: Api, api2: Api, e: PlanVM, done: bool)
    requires Migrated(api, api1, e, true) && Steady(api1, api2) && api2.cluster.vms == api1.cluster.vms
    requires NoDeletes(api1.writes) ==> NoDeletes(api2.writes)
    ensures Migrated(api, api2, e, done)
  {
  }

  lemma OfflineMigrateEffect(ns: string, api: Api, e: PlanVM)
    ensures Migrated(api, OfflineMigrate(ns, api, e).api, e, OfflineMigrate(ns, api, e).result.Ok?)
  {
    var got := FetchForMigration(api, e);
    FetchEffect(api, e);
    if got.result.Ok? && Prepare(got.result.value, e).Ok? {
      var patched := PatchVM(got.api, e.name, got.result.value, Prepare(got.result.value, e).value);
      PatchMigrates(api, got.api, e, Prepare(got.result.value, e).value);
      if patched.result.Ok? {
        CreateTargetsSteady(ns, patched.api, e, true);
        MigratedThen(api, patched.api, CreateTargets(ns, patched.api, e, 0, true).api, e, CreateTargets(ns, patched.api, e, 0, true).result.Ok?);
        assert OfflineMigrate(ns, api, e) == CreateTargets(ns, patched.api, e, 0, true);
      }
    }
  }

  lemma MigratedFrom(api: Api, api1: Api, api': Api, e: PlanVM, done: bool)
    requires api1.cluster == api.cluster && api1.writes == api.writes && Migrated(api1, api', e, done)
    ensures Migrated(api, api', e, done)
  {
  }

  lemma BeginOneEffect(ctx: Context, api: Api, e: PlanVM)
    ensures Migrated(api, BeginOne(ctx, api, e).0, e, BeginOne(ctx, api, e).1 == Began)
  {
    var vmi := CheckVMI(api, e.name);
    if vmi.result.Ok? && vmi.result.value {
      var can := CanMigrate(vmi.api, e.name);
      LiveMigrateEffect(ctx.namespace, can.api, e);
      MigratedFrom(api, can.api, LiveMigrate(ctx.namespace, can.api, e).api, e, LiveMigrate(ctx.namespace, can.api, e).result.Ok?);
    } else if vmi.result.Ok? {
      OfflineMigrateEffect(ctx.namespace, vmi.api, e);
      MigratedFrom(api, vmi.api, OfflineMigrate(ctx.namespace, vmi.api, e).api, e, OfflineMigrate(ctx.namespace, vmi.api, e).result.Ok?);
    }
  }

  /** Beginning a VM keeps all VMs confined, leaves swapped VMs swapped, and swaps the VM it reports as begun. */
  lemma BeginOneInvariant(ctx: Context, api: Api, e: PlanVM, table: Table, names: set<string>)
    requires WellFormed(table) && EntryMatches(e, table) && ConfinedVMs(api.cluster.vms, table)
    requires AllOffSources(names, api.cluster.vms, table)
    ensures
      var (api', verdict) := BeginOne(ctx, api, e);
      && ConfinedVMs(api'.cluster.vms, table)
      && AllOffSources(names, api'.cluster.vms, table)
      && (verdict == Began ==> AllOffSources(names + {e.name}, api'.cluster.vms, table))
      && (NoDeletes(api.writes) ==> NoDeletes(api'.writes))
  {
    var (api', verdict) := BeginOne(ctx, api, e);
    BeginOneEffect(ctx, api, e);
    if api'.cluster.vms != api.cluster.vms || verdict == Began {
      PrepareMovesOffSources(api.cluster.vms[e.name], e, table);
      SameSpecTransfer(Prepare(api.cluster.vms[e.name], e).value, api'.cluster.vms[e.name], table[e.name], table);
      ReplaceVM(api.cluster.vms, e.name, api'.cluster.vms[e.name], table);
    }
  }

  /** The whole Begin pass, failed or not: every VM it newly records as running is off its sources. */
  lemma {:induction false} BeginLoopInvariant(ctx: Context, t: TaskState, rest: seq<PlanVM>, table: Table, names: set<string>)
    requires WellFormed(table) && (forall e :: e in rest ==> EntryMatches(e, table)) && ConfinedVMs(t.api.cluster.vms, table)
    requires AllOffSources(names, t.api.cluster.vms, table) && NoDeletes(t.api.writes)
    ensures
      var t' := BeginLoop(ctx, t, rest).state;
      && ConfinedVMs(t'.api.cluster.vms, table)
      && AllOffSources(names + (SetOf(RunningNames(t'.running)) - SetOf(RunningNames(t.running))), t'.api.cluster.vms, table)
      && NoDeletes(t'.api.writes)
    decreases rest
  {
    if rest != [] {
      var (api, verdict) := BeginOne(ctx, t.api, rest[0]);
      BeginOneInvariant(ctx, t.api, rest[0], table, names);
      if verdict == Began {
        var r := Running(rest[0].name, "");
        RunningNamesAppend(t.running, r);
        BeginLoopInvariant(ctx, t.(api := api, running := t.running + [r]), rest[1..], table, names + {r.name});
      } else if verdict == Skipped {
        BeginLoopInvariant(ctx, t.(api := api), rest[1..], table, names);
      }
    }
  }

  lemma RunningNamesAppend(rs: seq<Running>, r: Running)
    ensures RunningNames(rs + [r]) == RunningNames(rs) + [r.name]
    ensures SetOf(RunningNames(rs + [r])) == SetOf(RunningNames(rs)) + {r.name}
  {
    SetOfAppend(RunningNames(rs), [r.name]);
    assert SetOf([r.name]) == {r.name};
  }

  // ----- Cancelling one VM -----

  /** A successful cancel rewrote the VM along the entry it found; a failed one may not have. */
  lemma CancelVMEffect(ctx: Context, api: Api, name: string)
    ensures
      var r := CancelVM(ctx, api, name);
      var found := FindEntry(Cancellable(ctx.plan), name);
      && r.api.cluster == api.cluster.(vms := r.api.cluster.vms)
      && (NoDeletes(api.writes) ==> NoDeletes(r.api.writes))
      && (r.result.Err? ==> r.api.cluster.vms == api.cluster.vms)
      && (r.result.Ok? ==>
            && name in api.cluster.vms && found.Some? && RevertedVM(api.cluster.vms[name], found.value).Ok?
            && r.api.cluster.vms == api.cluster.vms[name := RevertedVM(api.cluster.vms[name], found.value).value])
  {
  }

  ghost predicate RevertedIn(ctx: Context, api: Api, api': Api, name: string) {
    var found := FindEntry(Cancellable(ctx.plan), name);
    && name in api.cluster.vms && found.Some? && RevertedVM(api.cluster.vms[name], found.value).Ok?
    && api'.cluster.vms == api.cluster.vms[name := RevertedVM(api.cluster.vms[name], found.value).value]
  }

  ghost predicate FoundOffTargets(ctx: Context, api: Api, name: string) {
    var found := FindEntry(Cancellable(ctx.plan), name);
    name in api.cluster.vms && found.Some? && !ReferencesTargets(api.cluster.vms[name], found.value)
  }

  /** A VM with a VMI is reported as cancelled only when off its destinations with no active VMIM at that moment;
      a VM without one only after its volumes were reverted. */
  lemma CancelOneEffect(ctx: Context, api: Api, name: string)
    ensures
      var (api', verdict) := CancelOne(ctx, api, name);
      && Steady(api, api') && (NoDeletes(api.writes) ==> NoDeletes(api'.writes))
      && (api'.cluster.vms == api.cluster.vms || RevertedIn(ctx, api, api', name))
      && (verdict == NowCancelled && name in api.cluster.vmis ==>
            api'.cluster.vms == api.cluster.vms && FoundOffTargets(ctx, api, name) && !HasActiveVMIM(api.cluster, name, ctx.created))
      && (verdict == NowCancelled && name !in api.cluster.vmis ==> RevertedIn(ctx, api, api', name))
  {
    var vmi := CheckVMI(api, name);
    if vmi.result.Ok? && vmi.result.value {
      var on := CheckOnSource(ctx, vmi.api, name);
      CancelVMEffect(ctx, on.api, name);
    } else if vmi.result.Ok? {
      CancelVMEffect(ctx, vmi.api, name);
    }
  }

  lemma OffTargetsOfEntry(vm: VM, e: PlanVM, table: Table)
    requires EntryMatches(e, table) && !ReferencesTargets(vm, e)
    ensures OffTargets(vm, table[e.name])
  {
    forall i | 0 <= i < |table[e.name]| ensures !References(vm, table[e.name][i].destination) {
      assert Routes(e)[i].destination == e.targets[i].destination.value;
    }
  }

  /** Cancelling keeps all VMs confined and off-target VMs off target; a VM reported as cancelled is off all its
      destinations, and if it has a VMI then no VMIM of this migration's lifetime is active for it. */
  lemma CancelOneInvariant(ctx: Context, api: Api, name: string, table: Table, names: set<string>)
    requires WellFormed(table) && PlanMatches(ctx.plan, table) && ConfinedVMs(api.cluster.vms, table)
    requires AllOffTargets(names, api.cluster.vms, table)
    ensures
      var (api', verdict) := CancelOne(ctx, api, name);
      && ConfinedVMs(api'.cluster.vms, table)
      && AllOffTargets(names, api'.cluster.vms, table)
      && (verdict == NowCancelled ==> AllOffTargets(names + {name}, api'.cluster.vms, table))
      && (verdict == NowCancelled && name in api.cluster.vmis ==> !HasActiveVMIM(api'.cluster, name, ctx.created))
      && Steady(api, api') && (NoDeletes(api.writes) ==> NoDeletes(api'.writes))
  {
    CancelOneEffect(ctx, api, name);
    var (api', verdict) := CancelOne(ctx, api, name);
    CancellableMatches(ctx.plan, table, name);
    if RevertedIn(ctx, api, api', name) {
      var e := FindEntry(Cancellable(ctx.plan), name).value;
      RevertMovesOffTargets(api.cluster.vms[name], e, table);
      ReplaceVM(api.cluster.vms, name, RevertedVM(api.cluster.vms[name], e).value, table);
    } else if verdict == NowCancelled {
      OffTargetsOfEntry(api.cluster.vms[name], FindEntry(Cancellable(ctx.plan), name).value, table);
    }
  }

  /** What a cancel pass guarantees about the VMs it lists as cancelled. */
  ghost predicate SafelyCancelled(cancelled: seq<string>, cluster: Cluster, created: nat, table: Table) {
    && AllOffTargets(SetOf(cancelled), cluster.vms, table)
    && forall c :: c in cancelled && c in cluster.vmis ==> !HasActiveVMIM(cluster, c, created)
  }

  lemma CancelOneKeepsSafe(ctx: Context, api: Api, name: string, cancelled: seq<string>, table: Table)
    requires WellFormed(table) && PlanMatches(ctx.plan, table) && ConfinedVMs(api.cluster.vms, table)
    requires SafelyCancelled(cancelled, api.cluster, ctx.created, table) && NoDeletes(api.writes)
    ensures
      var (api', verdict) := CancelOne(ctx, api, name);
      && ConfinedVMs(api'.cluster.vms, table) && NoDeletes(api'.writes)
      && SafelyCancelled(if verdict == NowCancelled then cancelled + [name] else cancelled, api'.cluster, ctx.created, table)
  {
    CancelOneInvariant(ctx, api, name, table, SetOf(cancelled));
    assert SetOf(cancelled + [name]) == SetOf(cancelled) + {name};
  }

  lemma {:induction false} CancelLoopInvariant(ctx: Context, t: TaskState, rest: seq<Running>, running: seq<Running>, cancelled: seq<string>, table: Table)
    requires WellFormed(table) && PlanMatches(ctx.plan, table) && ConfinedVMs(t.api.cluster.vms, table)
    requires SafelyCancelled(cancelled, t.api.cluster, ctx.created, table) && NoDeletes(t.api.writes)
    ensures
      var p := CancelLoop(ctx, t, rest, running, cancelled);
      && ConfinedVMs(p.state.api.cluster.vms, table)
      && NoDeletes(p.state.api.writes)
      && (p.ok ==> SafelyCancelled(p.state.cancelled, p.state.api.cluster, ctx.created, table))
      && (!p.ok ==> p.state.phase == t.phase)
    decreases rest
  {
    if rest != [] {
      var name := rest[0].name;
      var (api, verdict) := CancelOne(ctx, t.api, name);
      CancelOneKeepsSafe(ctx, t.api, name, cancelled, table);
      match verdict {
        case CancelError =>
        case StillRunning =>
          CancelLoopInvariant(ctx, t.(api := api), rest[1..], running + [rest[0]], cancelled, table);
        case NowCancelled =>
          CancelLoopInvariant(ctx, t.(api := api), rest[1..], running, cancelled + [name], table);
      }
    }
  }

  // ----- Deleting destinations of cancelled VMs -----

  /** Every DataVolume deleted so far is a destination of a cancelled VM; no claim was deleted. */
  ghost predicate DeletesOnlyTargetsOf(ws: seq<Write>, ns: string, cancelled: set<string>, table: Table) {
    forall k :: 0 <= k < |ws| ==>
      && !ws[k].DeletedPVC?
      && (ws[k].DeletedDV? ==> ws[k].key.namespace == ns && exists c, i :: c in cancelled && c in table && 0 <= i < |table[c]| && ws[k].key.name == table[c][i].destination)
  }

  lemma {:induction false} DeleteTargetsEffect(ns: string, api: Api, e: PlanVM, from: nat, cancelled: set<string>, table: Table)
    requires EntryMatches(e, table) && e.name in cancelled && from <= |e.targets|
    requires DeletesOnlyTargetsOf(api.writes, ns, cancelled, table)
    ensures
      var r := DeleteTargets(ns, api, e.targets[from..]);
      && DeletesOnlyTargetsOf(r.api.writes, ns, cancelled, table)
      && r.api.cluster == api.cluster.(dvs := r.api.cluster.dvs)
    decreases |e.targets| - from
  {
    if from < |e.targets| {
      assert e.targets[from..][1..] == e.targets[from + 1..];
      assert table[e.name][from].destination == e.targets[from].destination.value;
      var key := Key(ns, e.targets[from].destination.value);
      if !api.Fails() {
        if key !in api.cluster.dvs {
          DeleteTargetsEffect(ns, api.Called(), e, from + 1, cancelled, table);
        } else {
          var d := DeleteDV(api.Called(), key);
          if d.result.Ok? {
            DeleteTargetsEffect(ns, d.api, e, from + 1, cancelled, table);
          }
        }
      }
    }
  }

  lemma {:induction false} DeleteEntriesEffect(ns: string, api: Api, entries: seq<PlanVM>, name: string, cancelled: set<string>, table: Table)
    requires (forall e :: e in entries ==> EntryMatches(e, table)) && name in cancelled
    requires DeletesOnlyTargetsOf(api.writes, ns, cancelled, table)
    ensures
      var r := DeleteEntries(ns, api, entries, name);
      && DeletesOnlyTargetsOf(r.api.writes, ns, cancelled, table)
      && r.api.cluster == api.cluster.(dvs := r.api.cluster.dvs)
    decreases entries
  {
    if entries != [] {
      if entries[0].name != name {
        DeleteEntriesEffect(ns, api, entries[1..], name, cancelled, table);
      } else {
        assert entries[0].targets[0..] == entries[0].targets;
        DeleteTargetsEffect(ns, api, entries[0], 0, cancelled, table);
        var r := DeleteTargets(ns, api, entries[0].targets);
        if r.result.Ok? {
          DeleteEntriesEffect(ns, r.api, entries[1..], name, cancelled, table);
        }
      }
    }
  }

  lemma {:induction false} DeleteCancelledEffect(ctx: Context, api: Api, rest: seq<string>, cancelled: set<string>, table: Table)
    requires PlanMatches(ctx.plan, table) && SetOf(rest) <= cancelled
    requires DeletesOnlyTargetsOf(api.writes, ctx.namespace, cancelled, table)
    ensures
      var r := DeleteCancelled(ctx, api, rest);
      && DeletesOnlyTargetsOf(r.api.writes, ctx.namespace, cancelled, table)
      && r.api.cluster == api.cluster.(dvs := r.api.cluster.dvs)
    decreases rest
  {
    if rest != [] {
      CancellableMatches(ctx.plan, table, rest[0]);
      assert rest[0] in SetOf(rest);
      DeleteEntriesEffect(ctx.namespace, api, Cancellable(ctx.plan), rest[0], cancelled, table);
      var r := DeleteEntries(ctx.namespace, api, Cancellable(ctx.plan), rest[0]);
      if r.result.Ok? {
        assert SetOf(rest[1..]) <= SetOf(rest);
        DeleteCancelledEffect(ctx, r.api, rest[1..], cancelled, table);
      }
    }
  }

  // ----- Deleting sources of completed VMs -----

  /** Every deletion so far is of a claim recorded as the source of a plan-completed VM this migration completed. */
  ghost predicate DeletesOnlySources(ws: seq<Write>, sources: seq<SourcePVC>) {
    forall k :: 0 <= k < |ws| && (ws[k].DeletedDV? || ws[k].DeletedPVC?) ==>
      exists s :: s in sources && ws[k].key == Key(s.namespace, s.name)
  }

  /** No claim is deleted under two different names in the log. */
  ghost predicate DeletedOnce(ws: seq<Write>) {
    forall i, j :: 0 <= i < j < |ws| && (ws[i].DeletedDV? || ws[i].DeletedPVC?) && (ws[j].DeletedDV? || ws[j].DeletedPVC?) ==> ws[i].key != ws[j].key
  }

  lemma {:induction false} DeleteSourcesEffect(api: Api, rest: seq<SourcePVC>, seen: set<string>, sources: seq<SourcePVC>)
    requires (forall s :: s in rest ==> s in sources) && DeletesOnlySources(api.writes, sources) && DeletedOnce(api.writes)
    requires forall k :: 0 <= k < |api.writes| && (api.writes[k].DeletedDV? || api.writes[k].DeletedPVC?) ==> api.writes[k].key.namespace + "/" + api.writes[k].key.name in seen
    ensures
      var r := DeleteSources(api, rest, seen);
      && DeletesOnlySources(r.api.writes, sources) && DeletedOnce(r.api.writes)
      && r.api.cluster == api.cluster.(dvs := r.api.cluster.dvs, pvcs := r.api.cluster.pvcs)
    decreases rest
  {
    if rest != [] {
      var s := rest[0];
      if DedupKey(s) in seen {
        DeleteSourcesEffect(api, rest[1..], seen, sources);
      } else {
        var key := Key(s.namespace, s.name);
        var r := DeleteSource(api, s);
        assert r.api.writes == api.writes || r.api.writes == api.writes + [DeletedDV(key)] || r.api.writes == api.writes + [DeletedPVC(key)];
        if r.result.Ok? {
          DeleteSourcesEffect(r.api, rest[1..], seen + {DedupKey(s)}, sources);
        }
      }
    }
  }

  lemma {:induction false} SourcesToDeleteAt(entries: seq<PlanVM>, completed: seq<string>, s: SourcePVC)
    ensures s in SourcesToDelete(entries, completed) <==> exists e :: e in entries && e.name in completed && s in e.sources
  {
    if entries != [] {
      SourcesToDeleteAt(entries[1..], completed, s);
      var head := if entries[0].name in completed then entries[0].sources else [];
      assert SourcesToDelete(entries, completed) == head + SourcesToDelete(entries[1..], completed);
      assert forall e :: e in entries <==> e == entries[0] || e in entries[1..];
    }
  }
}
