/** Which VMs a begin pass begins, and which disks it creates for them. */
module BeginOutcome {
  import opened Basics
  import opened Objects
  import opened VolumeRewrite
  import opened ClusterApi
  import opened TaskSpec
  import opened CrashPoints
  import opened PatchLog
  import opened MigrationController
  import opened MigrationRun
  import opened ClaimSafety

  // ----- Where a created disk comes from -----

  /** The DataVolume is the i-th destination of the entry; a clone copies the i-th recorded source, where that has a name. The source's claim exists. */
  predicate IsTarget(ns: string, claims: map<Key, PVC>, w: Write, e: PlanVM, i: int, clone: bool) {
    && w.CreatedDV? && 0 <= i < |e.targets| && i < |e.sources| && e.targets[i].destination.Some?
    && w.key == Key(ns, e.targets[i].destination.value) && Key(e.sources[i].namespace, e.sources[i].name) in claims
    && w.cloneOf == if clone && e.sources[i].name != "" then Some(e.sources[i].name) else None
  }

  /** Every DataVolume created along the log is a destination of the entry, with the right origin. */
  ghost predicate CreatesTargets(ns: string, claims: map<Key, PVC>, ws: seq<Write>, e: PlanVM, clone: bool) {
    forall k :: 0 <= k < |ws| && ws[k].CreatedDV? ==> exists i :: IsTarget(ns, claims, ws[k], e, i, clone)
  }

  lemma CreateTargetOrigin(ns: string, api: Api, e: PlanVM, i: nat, clone: bool) returns (ws: seq<Write>)
    requires i < |e.targets|
    ensures CreateTarget(ns, api, e, i, clone).api.writes == api.writes + ws && CreatesTargets(ns, api.cluster.pvcs, ws, e, clone)
    ensures CreateTarget(ns, api, e, i, clone).api.cluster.pvcs == api.cluster.pvcs
  {
    ws := CreateTarget(ns, api, e, i, clone).api.writes[|api.writes|..];
    if i < |e.sources| && e.targets[i].destination.Some? && ws != [] {
      var w := CreatedDV(Key(ns, e.targets[i].destination.value), if clone && e.sources[i].name != "" then Some(e.sources[i].name) else None);
      assert CreateTarget(ns, api, e, i, clone).api.writes == api.writes + [w];
      assert ws == [w] && IsTarget(ns, api.cluster.pvcs, w, e, i, clone);
    }
  }

  lemma CreatesThen(ns: string, claims: map<Key, PVC>, ws: seq<Write>, vs: seq<Write>, e: PlanVM, clone: bool)
    requires CreatesTargets(ns, claims, ws, e, clone) && CreatesTargets(ns, claims, vs, e, clone)
    ensures CreatesTargets(ns, claims, ws + vs, e, clone)
  {
    forall k | 0 <= k < |ws + vs| && (ws + vs)[k].CreatedDV? ensures exists i :: IsTarget(ns, claims, (ws + vs)[k], e, i, clone) {
      assert (ws + vs)[k] == if k < |ws| then ws[k] else vs[k - |ws|];
    }
  }

  lemma CreateTargetsStep(ns: string, api: Api, e: PlanVM, i: nat, clone: bool)
    requires i < |e.targets|
    ensures
      var r := CreateTarget(ns, api, e, i, clone);
      CreateTargets(ns, api, e, i, clone) == if r.result.Err? then r else CreateTargets(ns, r.api, e, i + 1, clone)
  {
  }

  lemma {:induction false} CreateTargetsOrigin(ns: string, api: Api, e: PlanVM, i: nat, clone: bool) returns (ws: seq<Write>)
    requires i <= |e.targets|
    ensures CreateTargets(ns, api, e, i, clone).api.writes == api.writes + ws && CreatesTargets(ns, api.cluster.pvcs, ws, e, clone)
    decreases |e.targets| - i
  {
    ws := [];
    if i < |e.targets| {
      var r := CreateTarget(ns, api, e, i, clone);
      ws := CreateTargetOrigin(ns, api, e, i, clone);
      CreateTargetsStep(ns, api, e, i, clone);
      if r.result.Ok? {
        var tail := CreateTargetsOrigin(ns, r.api, e, i + 1, clone);
        CreatesThen(ns, api.cluster.pvcs, ws, tail, e, clone);
        ws := ws + tail;
      }
    }
  }

  // ----- One VM -----

  /** Same VMIs and claims, and every VM is still there, as able to migrate live as before; no DataVolume has gone. */
  ghost predicate SameAbility(c: Cluster, c': Cluster) {
    && c'.vmis == c.vmis && c'.pvcs == c.pvcs && c'.vms.Keys == c.vms.Keys && c.dvs.Keys <= c'.dvs.Keys
    && forall n :: n in c.vms ==> c'.vms[n].liveMigratable == c.vms[n].liveMigratable && VolumeNames(c'.vms[n].volumes) == VolumeNames(c.vms[n].volumes)
  }

  predicate Offline(c: Cluster, name: string) {
    name !in c.vmis
  }

  /** Without a VMI the VM is begun; with one, if it exists and is able to migrate live, or is not running. */
  predicate Begins(c: Cluster, name: string) {
    name !in c.vmis || (name in c.vms && (c.vmis[name].isRunning ==> c.vms[name].liveMigratable))
  }

  /** What a migrate attempt may have done so far: patched this VM and created its disks. */
  ghost predicate Attempted(ns: string, api: Api, api': Api, e: PlanVM, clone: bool) {
    && SameAbility(api.cluster, api'.cluster)
    && |api'.writes| >= |api.writes| && api'.writes[..|api.writes|] == api.writes
    && CreatesTargets(ns, api.cluster.pvcs, api'.writes[|api.writes|..], e, clone)
    && forall k :: |api.writes| <= k < |api'.writes| && api'.writes[k].PatchedVM? ==> api'.writes[k].name == e.name
  }

  /** What a VM that was begun has: its volumes are those recorded, and all its destination DataVolumes exist. */
  ghost predicate HasDisks(ns: string, c: Cluster, e: PlanVM) {
    && e.name in c.vms && (forall i :: 0 <= i < |e.sources| ==> e.sources[i].volumeName in VolumeNames(c.vms[e.name].volumes))
    && TargetsExist(ns, c, e)
  }

  lemma AttemptThen(ns: string, api: Api, api1: Api, api2: Api, e: PlanVM, clone: bool)
    requires Attempted(ns, api, api1, e, clone) && Attempted(ns, api1, api2, e, clone)
    ensures Attempted(ns, api, api2, e, clone)
  {
    var n, m := |api.writes|, |api1.writes|;
    assert api2.writes[..n] == api2.writes[..m][..n];
    forall k | n <= k < |api2.writes|
      ensures api2.writes[k].CreatedDV? ==> exists i :: IsTarget(ns, api.cluster.pvcs, api2.writes[k], e, i, clone)
      ensures api2.writes[k].PatchedVM? ==> api2.writes[k].name == e.name
    {
      if k < m {
        assert api2.writes[k] == api2.writes[..m][k] == api1.writes[k] == api1.writes[n..][k - n];
      } else {
        assert api2.writes[k] == api2.writes[m..][k - m];
      }
    }
  }

  lemma CreatesAttempt(ns: string, api: Api, e: PlanVM, clone: bool)
    ensures Attempted(ns, api, CreateTargets(ns, api, e, 0, clone).api, e, clone)
    ensures CreateTargets(ns, api, e, 0, clone).api.cluster.vms == api.cluster.vms
    ensures CreateTargets(ns, api, e, 0, clone).result.Ok? ==> TargetsExist(ns, CreateTargets(ns, api, e, 0, clone).api.cluster, e)
  {
    var after := CreateTargets(ns, api, e, 0, clone).api;
    var ws := CreateTargetsEffect(ns, api, e, 0, clone);
    var vs := CreateTargetsOrigin(ns, api, e, 0, clone);
    ReplayCreates(api.cluster, ws);
    ReplayKeepsDVs(api.cluster, ws);
    ReplayKeepsVMIs(api.cluster, ws);
    ReplayKeepsPVCs(api.cluster, ws);
    assert after.writes[|api.writes|..] == ws == vs;
  }

  lemma {:induction false} ReplayKeepsVMIs(c: Cluster, ws: seq<Write>)
    ensures Replay(c, ws).vmis == c.vmis
  {
    if ws != [] {
      ReplayKeepsVMIs(c, ws[..|ws| - 1]);
    }
  }

  lemma {:induction false} ReplayKeepsPVCs(c: Cluster, ws: seq<Write>)
    requires OnlyCreates(ws)
    ensures Replay(c, ws).pvcs == c.pvcs
  {
    if ws != [] {
      ReplayKeepsPVCs(c, ws[..|ws| - 1]);
    }
  }

  lemma PatchAttempt(ns: string, api: Api, e: PlanVM, vm': VM, clone: bool)
    requires e.name in api.cluster.vms && vm'.liveMigratable == api.cluster.vms[e.name].liveMigratable
    requires VolumeNames(vm'.volumes) == VolumeNames(api.cluster.vms[e.name].volumes)
    ensures Attempted(ns, api, PatchVM(api, e.name, api.cluster.vms[e.name], vm').api, e, clone)
    ensures PatchVM(api, e.name, api.cluster.vms[e.name], vm').api.cluster.dvs == api.cluster.dvs
  {
    var after := PatchVM(api, e.name, api.cluster.vms[e.name], vm').api;
    if after.writes != api.writes {
      var ws := [PatchedVM(e.name, vm')];
      assert after.writes == api.writes + ws && after.writes[|api.writes|..] == ws;
    } else {
      assert after.writes[|api.writes|..] == [];
    }
  }

  lemma PrepareKeepsAbility(vm: VM, e: PlanVM)
    requires Prepare(vm, e).Ok?
    ensures Prepare(vm, e).value.liveMigratable == vm.liveMigratable && VolumeNames(Prepare(vm, e).value.volumes) == VolumeNames(vm.volumes)
  {
    var vm' := Prepare(vm, e).value;
    forall k | 0 <= k < |vm.volumes| ensures vm'.volumes[k].name == vm.volumes[k].name {
      assert RewriteVolume(vm.volumes[k], e.targets).Ok?;
    }
  }

  lemma FetchAttempt(ns: string, api: Api, e: PlanVM, clone: bool)
    ensures Attempted(ns, api, FetchForMigration(api, e).api, e, clone)
    ensures FetchForMigration(api, e).result.Ok? ==>
      && e.name in api.cluster.vms && FetchForMigration(api, e).result.value == api.cluster.vms[e.name]
      && forall i :: 0 <= i < |e.sources| ==> e.sources[i].volumeName in VolumeNames(api.cluster.vms[e.name].volumes)
  {
    FetchEffect(api, e);
    var r := FetchForMigration(api, e);
    if r.result.Ok? {
      var vm := api.cluster.vms[e.name];
      forall i | 0 <= i < |e.sources| ensures e.sources[i].volumeName in VolumeNames(vm.volumes) {
        assert HasVolume(vm, e.sources[i].volumeName);
        var k :| 0 <= k < |vm.volumes| && vm.volumes[k].name == e.sources[i].volumeName;
        assert VolumeNames(vm.volumes)[k] == e.sources[i].volumeName;
      }
    }
  }

  /** A live migration creates blank disks only, and tells a VM it rewrites to migrate its volumes. */
  lemma LiveMigrateOrigin(ns: string, api: Api, e: PlanVM)
    ensures
      var r := LiveMigrate(ns, api, e);
      && Attempted(ns, api, r.api, e, false)
      && (r.result.Ok? ==> HasDisks(ns, r.api.cluster, e) && r.api.cluster.vms[e.name].strategy == UpdateStrategy.Migration)
  {
    var got := FetchForMigration(api, e);
    FetchAttempt(ns, api, e, false);
    FetchEffect(api, e);
    if got.result.Ok? {
      CreatesAttempt(ns, got.api, e, false);
      var made := CreateTargets(ns, got.api, e, 0, false);
      AttemptThen(ns, api, got.api, made.api, e, false);
      if made.result.Ok? && Prepare(got.result.value, e).Ok? {
        PrepareKeepsAbility(got.result.value, e);
        var vm' := Prepare(got.result.value, e).value.(strategy := UpdateStrategy.Migration);
        PatchAttempt(ns, made.api, e, vm', false);
        var last := PatchVM(made.api, e.name, got.result.value, vm');
        AttemptThen(ns, api, made.api, last.api, e, false);
        TargetsStay(ns, made.api.cluster, last.api.cluster, e);
        assert LiveMigrate(ns, api, e) == last;
      }
    }
  }

  /** An offline migration creates clones only, each of the source recorded beside it. */
  lemma OfflineMigrateOrigin(ns: string, api: Api, e: PlanVM)
    ensures
      var r := OfflineMigrate(ns, api, e);
      Attempted(ns, api, r.api, e, true) && (r.result.Ok? ==> HasDisks(ns, r.api.cluster, e))
  {
    var got := FetchForMigration(api, e);
    FetchAttempt(ns, api, e, true);
    FetchEffect(api, e);
    if got.result.Ok? && Prepare(got.result.value, e).Ok? {
      PrepareKeepsAbility(got.result.value, e);
      var vm' := Prepare(got.result.value, e).value;
      PatchAttempt(ns, got.api, e, vm', true);
      var patched := PatchVM(got.api, e.name, got.result.value, vm');
      AttemptThen(ns, api, got.api, patched.api, e, true);
      if patched.result.Ok? {
        CreatesAttempt(ns, patched.api, e, true);
        var made := CreateTargets(ns, patched.api, e, 0, true);
        AttemptThen(ns, api, patched.api, made.api, e, true);
        assert OfflineMigrate(ns, api, e) == made;
      }
    }
  }

  lemma NothingAttempted(ns: string, api: Api, api': Api, e: PlanVM, clone: bool)
    requires api'.cluster == api.cluster && api'.writes == api.writes
    ensures Attempted(ns, api, api', e, clone)
  {
  }

  /** One planned VM: without a VMI it gets clones, with one blank disks; if it is not to be begun nothing happens. */
  lemma BeginOneOutcome(ctx: Context, api: Api, e: PlanVM)
    ensures
      var (api', verdict) := BeginOne(ctx, api, e);
      && Attempted(ctx.namespace, api, api', e, Offline(api.cluster, e.name))
      && (verdict == Began ==> Begins(api.cluster, e.name) && HasDisks(ctx.namespace, api'.cluster, e))
      && (verdict == Began && !Offline(api.cluster, e.name) ==> api'.cluster.vms[e.name].strategy == UpdateStrategy.Migration)
      && (verdict == Skipped ==> !Begins(api.cluster, e.name))
      && (!Begins(api.cluster, e.name) ==> api'.cluster == api.cluster && api'.writes == api.writes)
  {
    var ns := ctx.namespace;
    var vmi := CheckVMI(api, e.name);
    if vmi.result.Err? {
      NothingAttempted(ns, api, vmi.api, e, Offline(api.cluster, e.name));
    } else if vmi.result.value {
      var can := CanMigrate(vmi.api, e.name);
      NothingAttempted(ns, api, can.api, e, false);
      LiveMigrateOrigin(ns, can.api, e);
      AttemptThen(ns, api, can.api, LiveMigrate(ns, can.api, e).api, e, false);
    } else {
      NothingAttempted(ns, api, vmi.api, e, true);
      OfflineMigrateOrigin(ns, vmi.api, e);
      AttemptThen(ns, api, vmi.api, OfflineMigrate(ns, vmi.api, e).api, e, true);
    }
  }

  // ----- A begin pass -----

  ghost function BegunNames(c: Cluster, entries: seq<PlanVM>): seq<string> {
    if entries == [] then []
    else if Begins(c, entries[0].name) then [entries[0].name] + BegunNames(c, entries[1..])
    else BegunNames(c, entries[1..])
  }

  lemma {:induction false} BegunNamesHas(c: Cluster, entries: seq<PlanVM>, n: string)
    ensures n in BegunNames(c, entries) <==> Begins(c, n) && exists e :: e in entries && e.name == n
  {
    if entries != [] {
      BegunNamesHas(c, entries[1..], n);
      assert entries[0] in entries;
      if n in BegunNames(c, entries[1..]) {
        var e :| e in entries[1..] && e.name == n;
        assert e in entries;
      }
    }
  }

  lemma {:induction false} SameBegun(c: Cluster, c': Cluster, entries: seq<PlanVM>)
    requires SameAbility(c, c')
    ensures BegunNames(c', entries) == BegunNames(c, entries)
  {
    if entries != [] {
      assert Begins(c', entries[0].name) <==> Begins(c, entries[0].name);
      SameBegun(c, c', entries[1..]);
    }
  }

  lemma SameAbilityThrough(c: Cluster, c1: Cluster, c2: Cluster)
    requires SameAbility(c, c1) && SameAbility(c1, c2)
    ensures SameAbility(c, c2)
  {
  }

  lemma KeepsDisks(ns: string, c: Cluster, c': Cluster, e: PlanVM)
    requires SameAbility(c, c') && HasDisks(ns, c, e)
    ensures HasDisks(ns, c', e)
  {
    forall i | 0 <= i < |e.targets| ensures HasTarget(ns, c', e, i) {
      assert HasTarget(ns, c, e, i);
    }
  }

  function AfterBegin(t: TaskState, e: PlanVM, api: Api, verdict: BeginVerdict): TaskState {
    if verdict == Began then t.(api := api, running := t.running + [Running(e.name, "")]) else t.(api := api)
  }

  /** The loop goes on unless a VM fails. */
  lemma BeginLoopStep(ctx: Context, t: TaskState, rest: seq<PlanVM>)
    requires rest != []
    ensures
      var (api, verdict) := BeginOne(ctx, t.api, rest[0]);
      if verdict == BeginError then BeginLoop(ctx, t, rest) == Pass(t.(api := api), false)
      else BeginLoop(ctx, t, rest) == BeginLoop(ctx, AfterBegin(t, rest[0], api, verdict), rest[1..])
  {
  }

  lemma {:induction false} BeginLoopKeepsAbility(ctx: Context, t: TaskState, rest: seq<PlanVM>)
    ensures SameAbility(t.api.cluster, BeginLoop(ctx, t, rest).state.api.cluster)
    decreases rest
  {
    if rest != [] {
      var (api, verdict) := BeginOne(ctx, t.api, rest[0]);
      BeginOneOutcome(ctx, t.api, rest[0]);
      BeginLoopStep(ctx, t, rest);
      if verdict != BeginError {
        BeginLoopKeepsAbility(ctx, AfterBegin(t, rest[0], api, verdict), rest[1..]);
        SameAbilityThrough(t.api.cluster, api.cluster, BeginLoop(ctx, t, rest).state.api.cluster);
      }
    }
  }

  lemma JoinBegun(c: Cluster, c': Cluster, rest: seq<PlanVM>, before: seq<string>, end: seq<string>)
    requires rest != [] && SameAbility(c, c')
    requires end == (if Begins(c, rest[0].name) then before + [rest[0].name] else before) + BegunNames(c', rest[1..])
    ensures end == before + BegunNames(c, rest)
  {
    SameBegun(c, c', rest[1..]);
  }

  lemma {:induction false} BeginLoopNames(ctx: Context, t: TaskState, rest: seq<PlanVM>)
    requires BeginLoop(ctx, t, rest).ok
    ensures RunningNames(BeginLoop(ctx, t, rest).state.running) == RunningNames(t.running) + BegunNames(t.api.cluster, rest)
    decreases rest
  {
    if rest != [] {
      var (api, verdict) := BeginOne(ctx, t.api, rest[0]);
      BeginOneOutcome(ctx, t.api, rest[0]);
      BeginLoopStep(ctx, t, rest);
      var t1 := AfterBegin(t, rest[0], api, verdict);
      BeginLoopNames(ctx, t1, rest[1..]);
      assert RunningNames(t1.running) == if verdict == Began then RunningNames(t.running) + [rest[0].name] else RunningNames(t.running);
      JoinBegun(t.api.cluster, api.cluster, rest, RunningNames(t.running), RunningNames(BeginLoop(ctx, t, rest).state.running));
    }
  }

  lemma {:induction false} BeginLoopDisks(ctx: Context, t: TaskState, rest: seq<PlanVM>, e: PlanVM)
    requires BeginLoop(ctx, t, rest).ok && e in rest && Begins(t.api.cluster, e.name)
    ensures HasDisks(ctx.namespace, BeginLoop(ctx, t, rest).state.api.cluster, e)
    decreases rest
  {
    var (api, verdict) := BeginOne(ctx, t.api, rest[0]);
    BeginOneOutcome(ctx, t.api, rest[0]);
    BeginLoopStep(ctx, t, rest);
    var t1 := AfterBegin(t, rest[0], api, verdict);
    if e == rest[0] {
      BeginLoopKeepsAbility(ctx, t1, rest[1..]);
      KeepsDisks(ctx.namespace, api.cluster, BeginLoop(ctx, t, rest).state.api.cluster, e);
    } else {
      assert Begins(api.cluster, e.name) <==> Begins(t.api.cluster, e.name);
      BeginLoopDisks(ctx, t1, rest[1..], e);
    }
  }

  /** A write of a begin pass: a disk created for a planned VM to be begun, blank with a VMI and cloned without one,
      or a patch of such a VM. */
  ghost predicate BeginWrite(ns: string, c: Cluster, w: Write, entries: seq<PlanVM>) {
    && (w.CreatedDV? ==> exists e, i :: e in entries && Begins(c, e.name) && IsTarget(ns, c.pvcs, w, e, i, Offline(c, e.name)))
    && (w.PatchedVM? ==> exists e :: e in entries && Begins(c, e.name) && e.name == w.name)
  }

  lemma AttemptedWrites(ctx: Context, api: Api, e: PlanVM, entries: seq<PlanVM>, k: nat)
    requires e in entries && |api.writes| <= k < |BeginOne(ctx, api, e).0.writes|
    ensures BeginWrite(ctx.namespace, api.cluster, BeginOne(ctx, api, e).0.writes[k], entries)
  {
    BeginOneOutcome(ctx, api, e);
    var ws := BeginOne(ctx, api, e).0.writes;
    assert ws[k] == ws[|api.writes|..][k - |api.writes|];
    if ws[k].CreatedDV? {
      var i :| IsTarget(ctx.namespace, api.cluster.pvcs, ws[k], e, i, Offline(api.cluster, e.name));
    }
  }

  lemma BeginWriteAlike(ns: string, c: Cluster, c': Cluster, w: Write, entries: seq<PlanVM>)
    requires SameAbility(c, c') && BeginWrite(ns, c', w, entries)
    ensures BeginWrite(ns, c, w, entries)
  {
    if w.CreatedDV? {
      var e, i :| e in entries && Begins(c', e.name) && IsTarget(ns, c'.pvcs, w, e, i, Offline(c', e.name));
      assert Begins(c, e.name) && IsTarget(ns, c.pvcs, w, e, i, Offline(c, e.name));
    }
    if w.PatchedVM? {
      var e :| e in entries && Begins(c', e.name) && e.name == w.name;
      assert Begins(c, e.name);
    }
  }

  lemma {:induction false} BeginLoopWrites(ctx: Context, t: TaskState, rest: seq<PlanVM>, entries: seq<PlanVM>, k: nat)
    requires forall e :: e in rest ==> e in entries
    ensures
      var ws := BeginLoop(ctx, t, rest).state.api.writes;
      && |ws| >= |t.api.writes| && ws[..|t.api.writes|] == t.api.writes
      && (|t.api.writes| <= k < |ws| ==> BeginWrite(ctx.namespace, t.api.cluster, ws[k], entries))
    decreases rest
  {
    if rest != [] {
      var (api, verdict) := BeginOne(ctx, t.api, rest[0]);
      BeginOneOutcome(ctx, t.api, rest[0]);
      var ws := BeginLoop(ctx, t, rest).state.api.writes;
      if verdict != BeginError {
        var t1 := AfterBegin(t, rest[0], api, verdict);
        BeginLoopStep(ctx, t, rest);
        BeginLoopWrites(ctx, t1, rest[1..], entries, k);
        assert ws[..|t.api.writes|] == ws[..|api.writes|][..|t.api.writes|];
        if |api.writes| <= k < |ws| {
          BeginWriteAlike(ctx.namespace, t.api.cluster, api.cluster, ws[k], entries);
        } else if k < |api.writes| {
          assert ws[k] == ws[..|api.writes|][k] == api.writes[k];
        }
      }
      if |t.api.writes| <= k < |api.writes| {
        AttemptedWrites(ctx, t.api, rest[0], entries, k);
      }
    }
  }

  /** A begin pass that gets through records as running, in order, exactly the planned VMs that are to be begun: those
      without a VMI, and those whose VM exists and is able to migrate live or is not running. Each of them still has
      every volume the plan recorded, and all its destination DataVolumes exist. */
  lemma BeginPassExactly(ctx: Context, t: TaskState, e: PlanVM)
    requires t.phase == BeginLiveMigration && RunPhase(ctx, t).ok
    ensures ctx.plan.Some? && RunPhase(ctx, t).state.phase == WaitForLiveMigrationToComplete
    ensures
      var t', entries := RunPhase(ctx, t).state, ctx.plan.value.ready + ctx.plan.value.inProgress;
      && RunningNames(t'.running) == RunningNames(t.running) + BegunNames(t.api.cluster, entries)
      && (e in entries ==> (e.name in BegunNames(t.api.cluster, entries) <==> Begins(t.api.cluster, e.name)))
      && (e in entries && Begins(t.api.cluster, e.name) ==> HasDisks(ctx.namespace, t'.api.cluster, e))
  {
    var entries := ctx.plan.value.ready + ctx.plan.value.inProgress;
    assert Cancellable(ctx.plan) == entries;
    BeginLoopNames(ctx, t, entries);
    if e in entries && Begins(t.api.cluster, e.name) {
      BeginLoopDisks(ctx, t, entries, e);
    }
    BeginLoopPhase(ctx, t, entries);
    BegunNamesHas(t.api.cluster, entries, e.name);
  }

  lemma {:induction false} BeginLoopPhase(ctx: Context, t: TaskState, rest: seq<PlanVM>)
    ensures BeginLoop(ctx, t, rest).state.phase == if BeginLoop(ctx, t, rest).ok then WaitForLiveMigrationToComplete else t.phase
    decreases rest
  {
    if rest != [] {
      var (api, verdict) := BeginOne(ctx, t.api, rest[0]);
      if verdict == Skipped {
        BeginLoopPhase(ctx, t.(api := api), rest[1..]);
      } else if verdict == Began {
        BeginLoopPhase(ctx, t.(api := api, running := t.running + [Running(rest[0].name, "")]), rest[1..]);
      }
    }
  }

  ghost predicate OnlyPatches(ws: seq<Write>) {
    forall k :: 0 <= k < |ws| ==> ws[k].PatchedVM?
  }

  lemma {:induction false} CancelLoopCreatesNothing(ctx: Context, t: TaskState, rest: seq<Running>, running: seq<Running>, cancelled: seq<string>)
    requires OnlyPatches(t.api.writes)
    ensures OnlyPatches(CancelLoop(ctx, t, rest, running, cancelled).state.api.writes)
    decreases rest
  {
    if rest != [] {
      var (api, verdict) := CancelOne(ctx, t.api, rest[0].name);
      CancelOneOnlyPatches(ctx, t.api, rest[0].name);
      match verdict {
        case CancelError =>
        case StillRunning => CancelLoopCreatesNothing(ctx, t.(api := api), rest[1..], running + [rest[0]], cancelled);
        case NowCancelled => CancelLoopCreatesNothing(ctx, t.(api := api), rest[1..], running, cancelled + [rest[0].name]);
      }
    }
  }

  lemma CancelVMOnlyPatches(ctx: Context, api: Api, name: string)
    requires OnlyPatches(api.writes)
    ensures OnlyPatches(CancelVM(ctx, api, name).api.writes)
  {
  }

  lemma CancelOneOnlyPatches(ctx: Context, api: Api, name: string)
    requires OnlyPatches(api.writes)
    ensures OnlyPatches(CancelOne(ctx, api, name).0.writes)
  {
    var vmi := CheckVMI(api, name);
    if vmi.result.Ok? && vmi.result.value {
      CancelVMOnlyPatches(ctx, CheckOnSource(ctx, vmi.api, name).api, name);
    } else if vmi.result.Ok? {
      CancelVMOnlyPatches(ctx, vmi.api, name);
    }
  }

  // ----- Every run -----

  /** Where disks come from: whatever state a reconcile starts from and whatever calls fail, every DataVolume it creates
      is a destination of a planned VM it begins, in a begin pass: blank if the VM has a VMI, and otherwise a clone of
      the source recorded beside that destination. It patches no planned VM that it does not begin. */
  lemma DisksAreBlankOrClones(s: System, o: Outcome, k: nat)
    requires k < |Reconciled(s, o).api.writes| && Reconciled(s, o).api.writes[k].CreatedDV?
    ensures s.mig.phase == BeginLiveMigration && s.plan.Some?
    ensures BeginWrite(s.mig.namespace, s.cluster, Reconciled(s, o).api.writes[k], s.plan.value.ready + s.plan.value.inProgress)
  {
    var ctx, t := ContextOf(s), Entered(s, o);
    if Runs(s, o) {
      RunningPass(s, o);
      match t.phase {
        case BeginLiveMigration =>
          if s.plan.Some? {
            BeginLoopWrites(ctx, t, Cancellable(s.plan), Cancellable(s.plan), k);
          }
        case Canceling =>
          CancelLoopCreatesNothing(ctx, t, t.running, [], []);
        case WaitForLiveMigrationToComplete =>
          WaitLoopLists(ctx, t, t.running, []);
        case CleanupMigrationResources =>
          if s.plan.Some? {
            DeleteSourcesOnlyDelete(Leftovers(t.api).api, SourcesToDelete(s.plan.value.completed, t.completed), {});
          }
        case CleanupCancelledMigrations =>
          DeleteCancelledOnlyDeletes(ctx, Leftovers(t.api).api, t.cancelled);
        case _ =>
      }
    } else {
      IdlePass(s, o);
    }
  }
}
