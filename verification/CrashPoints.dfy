/** Stopping a migration after any prefix of its writes leaves the VM and its disks in a safe combination. */
module CrashPoints {
  import opened Basics
  import opened Objects
  import opened VolumeRewrite
  import opened Confinement
  import opened ClusterApi

  function Apply(c: Cluster, w: Write): Cluster {
    match w
    case CreatedDV(key, _) => c.(dvs := c.dvs[key := DVPending])
    case PatchedVM(name, vm) => c.(vms := c.vms[name := vm])
    case DeletedDV(key) => c.(dvs := c.dvs - {key})
    case DeletedPVC(key) => c.(pvcs := c.pvcs - {key})
    case StampedPlan => c
  }

  /** The cluster after a sequence of writes. */
  function Replay(c: Cluster, ws: seq<Write>): Cluster {
    if ws == [] then c else Apply(Replay(c, ws[..|ws| - 1]), ws[|ws| - 1])
  }

  lemma {:induction false} ReplayConcat(c: Cluster, ws: seq<Write>, vs: seq<Write>)
    ensures Replay(c, ws + vs) == Replay(Replay(c, ws), vs)
  {
    if vs == [] {
      assert ws + vs == ws;
    } else {
      var init := vs[..|vs| - 1];
      assert (ws + vs)[..|ws + vs| - 1] == ws + init;
      ReplayConcat(c, ws, init);
    }
  }

  lemma {:induction false} ReplayCreates(c: Cluster, ws: seq<Write>)
    requires forall i :: 0 <= i < |ws| ==> ws[i].CreatedDV?
    ensures Replay(c, ws).vms == c.vms
  {
    if ws != [] {
      ReplayCreates(c, ws[..|ws| - 1]);
    }
  }

  /** Between two points of a pass exactly the writes `ws` happened. */
  ghost predicate Did(api: Api, api': Api, ws: seq<Write>) {
    api'.writes == api.writes + ws && api'.cluster == Replay(api.cluster, ws)
  }

  lemma DidThen(api: Api, api1: Api, api2: Api, ws: seq<Write>, vs: seq<Write>)
    requires Did(api, api1, ws) && Did(api1, api2, vs)
    ensures Did(api, api2, ws + vs)
  {
    ReplayConcat(api.cluster, ws, vs);
  }

  ghost predicate OnlyCreates(ws: seq<Write>) {
    forall k :: 0 <= k < |ws| ==> ws[k].CreatedDV?
  }

  lemma FetchEffect(api: Api, e: PlanVM)
    ensures FetchForMigration(api, e).api.cluster == api.cluster && FetchForMigration(api, e).api.writes == api.writes
    ensures FetchForMigration(api, e).result.Ok? ==> e.name in api.cluster.vms && FetchForMigration(api, e).result.value == api.cluster.vms[e.name]
  {
  }

  lemma PatchEffect(api: Api, name: string, vm: VM, vm': VM) returns (ws: seq<Write>)
    requires name in api.cluster.vms && api.cluster.vms[name] == vm
    ensures Did(api, PatchVM(api, name, vm, vm').api, ws) && |ws| <= 1
    ensures PatchVM(api, name, vm, vm').api.cluster == api.cluster.(vms := PatchVM(api, name, vm, vm').api.cluster.vms)
    ensures PatchVM(api, name, vm, vm').result.Ok? ==> PatchVM(api, name, vm, vm').api.cluster.vms == api.cluster.vms[name := vm']
    ensures PatchVM(api, name, vm, vm').result.Err? ==> ws == []
  {
    ws := if vm == vm' || api.Fails() then [] else [PatchedVM(name, vm')];
    assert ws != [] ==> ws[..|ws| - 1] == [];
  }

  lemma CreateDVEffect(api: Api, key: Key, cloneOf: Option<string>) returns (ws: seq<Write>)
    ensures Did(api, CreateDV(api, key, cloneOf).api, ws) && OnlyCreates(ws)
    ensures CreateDV(api, key, cloneOf).result.Ok? ==> key in CreateDV(api, key, cloneOf).api.cluster.dvs
  {
    ws := if api.Fails() || key in api.cluster.dvs then [] else [CreatedDV(key, cloneOf)];
    assert ws != [] ==> ws[..|ws| - 1] == [];
  }

  predicate HasTarget(ns: string, c: Cluster, e: PlanVM, i: nat) {
    i < |e.targets| && e.targets[i].destination.Some? && Key(ns, e.targets[i].destination.value) in c.dvs
  }

  lemma CreateTargetEffect(ns: string, api: Api, e: PlanVM, i: nat, clone: bool) returns (ws: seq<Write>)
    requires i < |e.targets|
    ensures
      var r := CreateTarget(ns, api, e, i, clone);
      Did(api, r.api, ws) && OnlyCreates(ws) && (r.result.Ok? ==> HasTarget(ns, r.api.cluster, e, i))
  {
    ws := [];
    if i < |e.sources| && e.targets[i].destination.Some? {
      var source := Key(e.sources[i].namespace, e.sources[i].name);
      if !api.Fails() && source in api.cluster.pvcs {
        var owned := api.cluster.pvcs[source].ownedByDataVolume;
        if !(owned && (api.Called().Fails() || Key(ns, source.name) !in api.cluster.dvs)) {
          ws := CreateDVEffect(if owned then api.Called().Called() else api.Called(), Key(ns, e.targets[i].destination.value),
                               if clone && e.sources[i].name != "" then Some(e.sources[i].name) else None);
        }
      }
    }
  }

  lemma TargetThenOthers(ns: string, e: PlanVM, i: nat, api: Api, api1: Api, api2: Api, ws: seq<Write>, tail: seq<Write>, ok: bool)
    requires Did(api, api1, ws) && OnlyCreates(ws) && HasTarget(ns, api1.cluster, e, i)
    requires Did(api1, api2, tail) && OnlyCreates(tail) && (ok ==> forall k :: i + 1 <= k < |e.targets| ==> HasTarget(ns, api2.cluster, e, k))
    ensures Did(api, api2, ws + tail) && OnlyCreates(ws + tail)
    ensures ok ==> forall k :: i <= k < |e.targets| ==> HasTarget(ns, api2.cluster, e, k)
  {
    ReplayKeepsDVs(api1.cluster, tail);
    DidThen(api, api1, api2, ws, tail);
    assert HasTarget(ns, api2.cluster, e, i);
  }

  /** The i-th destination and those after it are created in order. */
  lemma {:induction false} CreateTargetsEffect(ns: string, api: Api, e: PlanVM, i: nat, clone: bool) returns (ws: seq<Write>)
    requires i <= |e.targets|
    ensures
      var r := CreateTargets(ns, api, e, i, clone);
      Did(api, r.api, ws) && OnlyCreates(ws) && (r.result.Ok? ==> forall k :: i <= k < |e.targets| ==> HasTarget(ns, r.api.cluster, e, k))
    decreases |e.targets| - i
  {
    if i == |e.targets| {
      ws := [];
    } else {
      var r := CreateTarget(ns, api, e, i, clone);
      ws := CreateTargetEffect(ns, api, e, i, clone);
      if r.result.Ok? {
        var after := CreateTargets(ns, r.api, e, i + 1, clone).api;
        var tail := CreateTargetsEffect(ns, r.api, e, i + 1, clone);
        assert CreateTargets(ns, api, e, i, clone) == CreateTargets(ns, r.api, e, i + 1, clone);
        TargetThenOthers(ns, e, i, api, r.api, after, ws, tail, CreateTargets(ns, r.api, e, i + 1, clone).result.Ok?);
        ws := ws + tail;
      }
    }
  }

  lemma {:induction false} ReplayKeepsDVs(c: Cluster, ws: seq<Write>)
    requires OnlyCreates(ws)
    ensures c.dvs.Keys <= Replay(c, ws).dvs.Keys
  {
    if ws != [] {
      ReplayKeepsDVs(c, ws[..|ws| - 1]);
    }
  }

  ghost predicate TargetsExist(ns: string, c: Cluster, e: PlanVM) {
    forall i :: 0 <= i < |e.targets| ==> HasTarget(ns, c, e, i)
  }

  lemma TargetsStay(ns: string, c: Cluster, c': Cluster, e: PlanVM)
    requires TargetsExist(ns, c, e) && c'.dvs == c.dvs
    ensures TargetsExist(ns, c', e)
  {
    assert forall i :: HasTarget(ns, c, e, i) ==> HasTarget(ns, c', e, i);
  }

  /** Live migration: at every crash point, a changed VM already has all its destination DataVolumes. */
  lemma LiveMigrateCrashSafe(ns: string, api: Api, e: PlanVM) returns (ws: seq<Write>)
    ensures Did(api, LiveMigrate(ns, api, e).api, ws)
    ensures forall k :: 0 <= k <= |ws| && Replay(api.cluster, ws[..k]).vms != api.cluster.vms ==> TargetsExist(ns, Replay(api.cluster, ws[..k]), e)
  {
    var got := FetchForMigration(api, e);
    FetchEffect(api, e);
    if got.result.Err? {
      ws := [];
    } else {
      var vm := got.result.value;
      var made := CreateTargets(ns, got.api, e, 0, false);
      var creates := CreateTargetsEffect(ns, got.api, e, 0, false);
      ReplayCreates(api.cluster, creates);
      ws := creates;
      var final := LiveMigrate(ns, api, e).api;
      if made.result.Ok? && Prepare(vm, e).Ok? {
        var patch := PatchEffect(made.api, e.name, vm, Prepare(vm, e).value.(strategy := Migration));
        DidThen(api, made.api, final, creates, patch);
        TargetsStay(ns, made.api.cluster, final.cluster, e);
        ws := creates + patch;
      }
      forall k | 0 <= k <= |ws| && Replay(api.cluster, ws[..k]).vms != api.cluster.vms
        ensures TargetsExist(ns, Replay(api.cluster, ws[..k]), e)
      {
        if k <= |creates| {
          assert ws[..k] == creates[..k];
          ReplayCreates(api.cluster, creates[..k]);
          assert false;
        } else {
          assert ws[..k] == ws;
        }
      }
    }
  }

  /** Offline migration: at every crash point, a DataVolume this pass created implies the VM has been rewritten. */
  lemma OfflineMigrateCrashSafe(ns: string, api: Api, e: PlanVM) returns (ws: seq<Write>)
    ensures Did(api, OfflineMigrate(ns, api, e).api, ws)
    ensures forall k :: 0 <= k <= |ws| && Replay(api.cluster, ws[..k]).dvs != api.cluster.dvs ==>
      && e.name in api.cluster.vms && Prepare(api.cluster.vms[e.name], e).Ok?
      && Replay(api.cluster, ws[..k]).vms == api.cluster.vms[e.name := Prepare(api.cluster.vms[e.name], e).value]
  {
    var got := FetchForMigration(api, e);
    FetchEffect(api, e);
    if got.result.Err? || Prepare(got.result.value, e).Err? {
      ws := [];
    } else {
      var vm := got.result.value;
      var vm' := Prepare(vm, e).value;
      var patched := PatchVM(got.api, e.name, vm, vm');
      var w := PatchEffect(got.api, e.name, vm, vm');
      if patched.result.Err? {
        ws := w;
      } else {
        var creates := CreateTargetsEffect(ns, patched.api, e, 0, true);
        DidThen(api, patched.api, OfflineMigrate(ns, api, e).api, w, creates);
        ws := w + creates;
        forall k | 0 <= k <= |ws| && Replay(api.cluster, ws[..k]).dvs != api.cluster.dvs
          ensures Replay(api.cluster, ws[..k]).vms == api.cluster.vms[e.name := vm']
        {
          assert ws[..0] == [];
          if |w| <= k {
            assert ws[..k] == w + creates[..k - |w|];
            ReplayConcat(api.cluster, w, creates[..k - |w|]);
            ReplayCreates(patched.api.cluster, creates[..k - |w|]);
          }
        }
      }
    }
  }

  /** Hence no clone is ever created while the VM still names one of the sources being cloned. */
  lemma NoCloneWhileOnSources(ns: string, api: Api, e: PlanVM, table: Table) returns (ws: seq<Write>)
    requires WellFormed(table) && ConfinedVMs(api.cluster.vms, table)
    requires Aligned(e) && Routes(e) == RoutesOf(table, e.name)
    ensures Did(api, OfflineMigrate(ns, api, e).api, ws)
    ensures forall k :: 0 <= k <= |ws| && Replay(api.cluster, ws[..k]).dvs != api.cluster.dvs ==>
      e.name in Replay(api.cluster, ws[..k]).vms && OffSources(Replay(api.cluster, ws[..k]).vms[e.name], Routes(e))
  {
    ws := OfflineMigrateCrashSafe(ns, api, e);
    if e.name in api.cluster.vms {
      PrepareMovesOffSources(api.cluster.vms[e.name], e, table);
    }
  }
}
