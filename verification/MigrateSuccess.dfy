/** When migrating a VM succeeds, given that no call fails. */
module MigrateSuccess {
  import opened Basics
  import opened Objects
  import opened VolumeRewrite
  import opened ClusterApi
  import opened CrashPoints
  import opened BeginOutcome
  import opened PassOutcome

  /** The k-th destination can be made: it has a name, and the source recorded beside it has a claim, and a DataVolume too
      if the claim belongs to one. */
  predicate CanMake(ns: string, c: Cluster, e: PlanVM, k: nat)
    requires k < |e.targets|
  {
    && e.targets[k].destination.Some? && k < |e.sources|
    && var source := Key(e.sources[k].namespace, e.sources[k].name);
       source in c.pvcs && (c.pvcs[source].ownedByDataVolume ==> Key(ns, e.sources[k].name) in c.dvs)
  }

  /** The claim side of it, which creating disks cannot change. */
  predicate HasClaim(c: Cluster, e: PlanVM, k: nat)
    requires k < |e.targets|
  {
    e.targets[k].destination.Some? && k < |e.sources| && Key(e.sources[k].namespace, e.sources[k].name) in c.pvcs
  }

  /** A destination that already exists is as good as one that was made. */
  lemma MakeOne(ns: string, api: Api, e: PlanVM, k: nat, clone: bool)
    requires k < |e.targets| && Faultless(api)
    ensures
      var r := CreateTarget(ns, api, e, k, clone);
      && Faultless(r.api) && r.api.cluster.pvcs == api.cluster.pvcs && api.cluster.dvs.Keys <= r.api.cluster.dvs.Keys
      && (r.result.Ok? <==> CanMake(ns, api.cluster, e, k))
  {
    CalledIsFaultless(api);
    CalledIsFaultless(api.Called());
    CalledIsFaultless(api.Called().Called());
  }

  ghost predicate AllCanMake(ns: string, c: Cluster, e: PlanVM, i: nat) {
    forall k :: i <= k < |e.targets| ==> CanMake(ns, c, e, k)
  }

  ghost predicate AllHaveClaims(c: Cluster, e: PlanVM, i: nat) {
    forall k :: i <= k < |e.targets| ==> HasClaim(c, e, k)
  }

  lemma StillCanMake(ns: string, c: Cluster, c': Cluster, e: PlanVM, i: nat)
    requires c'.pvcs == c.pvcs && c.dvs.Keys <= c'.dvs.Keys && AllCanMake(ns, c, e, i)
    ensures AllCanMake(ns, c', e, i + 1)
  {
    forall k | i + 1 <= k < |e.targets| ensures CanMake(ns, c', e, k) {
      assert CanMake(ns, c, e, k);
      assert Key(ns, e.sources[k].name) in c.dvs.Keys ==> Key(ns, e.sources[k].name) in c'.dvs.Keys;
    }
  }

  lemma {:induction false} MakeAll(ns: string, api: Api, e: PlanVM, i: nat, clone: bool)
    requires i <= |e.targets| && Faultless(api) && AllCanMake(ns, api.cluster, e, i)
    ensures CreateTargets(ns, api, e, i, clone).result.Ok?
    decreases |e.targets| - i
  {
    if i < |e.targets| {
      MakeOne(ns, api, e, i, clone);
      CreateTargetsStep(ns, api, e, i, clone);
      var r := CreateTarget(ns, api, e, i, clone);
      StillCanMake(ns, api.cluster, r.api.cluster, e, i);
      MakeAll(ns, r.api, e, i + 1, clone);
    }
  }

  lemma ClaimsWereThere(c: Cluster, c': Cluster, e: PlanVM, i: nat)
    requires i < |e.targets| && c'.pvcs == c.pvcs && HasClaim(c, e, i) && AllHaveClaims(c', e, i + 1)
    ensures AllHaveClaims(c, e, i)
  {
    forall k | i <= k < |e.targets| ensures HasClaim(c, e, k) {
      assert k > i ==> HasClaim(c', e, k);
    }
  }

  lemma {:induction false} MadeAll(ns: string, api: Api, e: PlanVM, i: nat, clone: bool)
    requires i <= |e.targets| && Faultless(api) && CreateTargets(ns, api, e, i, clone).result.Ok?
    ensures AllHaveClaims(api.cluster, e, i)
    decreases |e.targets| - i
  {
    if i < |e.targets| {
      MakeOne(ns, api, e, i, clone);
      CreateTargetsStep(ns, api, e, i, clone);
      var r := CreateTarget(ns, api, e, i, clone);
      MadeAll(ns, r.api, e, i + 1, clone);
      ClaimsWereThere(api.cluster, r.api.cluster, e, i);
    }
  }

  /** The VM is there, has every volume the plan recorded, and can be rewritten. */
  predicate CanMigrate(c: Cluster, e: PlanVM) {
    && e.name in c.vms && Prepare(c.vms[e.name], e).Ok?
    && forall i :: 0 <= i < |e.sources| ==> exists k :: 0 <= k < |c.vms[e.name].volumes| && c.vms[e.name].volumes[k].name == e.sources[i].volumeName
  }

  lemma FetchSucceeds(api: Api, e: PlanVM)
    requires Faultless(api)
    ensures
      var r := FetchForMigration(api, e);
      && Faultless(r.api) && r.api.cluster == api.cluster
      && (r.result.Ok? && Prepare(r.result.value, e).Ok? <==> CanMigrate(api.cluster, e))
      && (r.result.Ok? ==> e.name in api.cluster.vms && r.result.value == api.cluster.vms[e.name])
  {
    CalledIsFaultless(api);
    CalledIsFaultless(api.Called());
    if e.name in api.cluster.vms {
      var vm := api.cluster.vms[e.name];
      assert SourcesPresent(vm, e) <==> forall i :: 0 <= i < |e.sources| ==> HasVolume(vm, e.sources[i].volumeName);
    }
  }

  /** Migrating a VM while no call fails: it takes a VM that has the recorded volumes and can be rewritten and, for every
      target, a named destination and a source with a claim; and that is enough if a claim that belongs to a DataVolume
      still has it. Destinations that exist already are no obstacle, so a failed attempt can be repeated. */
  lemma MigrateSucceeds(ns: string, api: Api, e: PlanVM)
    requires Faultless(api)
    ensures
      var live, offline := LiveMigrate(ns, api, e).result, OfflineMigrate(ns, api, e).result;
      && (live.Ok? || offline.Ok? ==> CanMigrate(api.cluster, e) && AllHaveClaims(api.cluster, e, 0))
      && (CanMigrate(api.cluster, e) && AllCanMake(ns, api.cluster, e, 0) ==> live.Ok? && offline.Ok?)
  {
    FetchSucceeds(api, e);
    LiveSucceeds(ns, api, e);
    OfflineSucceeds(ns, api, e);
  }

  lemma LiveSucceeds(ns: string, api: Api, e: PlanVM)
    requires Faultless(api)
    ensures LiveMigrate(ns, api, e).result.Ok? ==> CanMigrate(api.cluster, e) && AllHaveClaims(api.cluster, e, 0)
    ensures CanMigrate(api.cluster, e) && AllCanMake(ns, api.cluster, e, 0) ==> LiveMigrate(ns, api, e).result.Ok?
  {
    FetchSucceeds(api, e);
    var got := FetchForMigration(api, e);
    if got.result.Ok? {
      var made := CreateTargets(ns, got.api, e, 0, false);
      if made.result.Ok? {
        MadeAll(ns, got.api, e, 0, false);
      }
      if AllCanMake(ns, api.cluster, e, 0) {
        MakeAll(ns, got.api, e, 0, false);
      }
      if Prepare(got.result.value, e).Ok? && made.result.Ok? {
        MakingIsFaultless(ns, got.api, e, 0, false);
        var vm' := Prepare(got.result.value, e).value.(strategy := UpdateStrategy.Migration);
        CalledIsFaultless(made.api);
        assert PatchVM(made.api, e.name, got.result.value, vm').result.Ok?;
      }
    }
  }

  lemma OfflineSucceeds(ns: string, api: Api, e: PlanVM)
    requires Faultless(api)
    ensures OfflineMigrate(ns, api, e).result.Ok? ==> CanMigrate(api.cluster, e) && AllHaveClaims(api.cluster, e, 0)
    ensures CanMigrate(api.cluster, e) && AllCanMake(ns, api.cluster, e, 0) ==> OfflineMigrate(ns, api, e).result.Ok?
  {
    FetchSucceeds(api, e);
    var got := FetchForMigration(api, e);
    if got.result.Ok? && Prepare(got.result.value, e).Ok? {
      CalledIsFaultless(got.api);
      var patched := PatchVM(got.api, e.name, got.result.value, Prepare(got.result.value, e).value);
      assert patched.result.Ok? && Faultless(patched.api);
      assert patched.api.cluster.pvcs == api.cluster.pvcs && patched.api.cluster.dvs == api.cluster.dvs;
      if CreateTargets(ns, patched.api, e, 0, true).result.Ok? {
        MadeAll(ns, patched.api, e, 0, true);
        assert forall k :: 0 <= k < |e.targets| && HasClaim(patched.api.cluster, e, k) ==> HasClaim(api.cluster, e, k);
      }
      if AllCanMake(ns, api.cluster, e, 0) {
        assert forall k :: 0 <= k < |e.targets| && CanMake(ns, api.cluster, e, k) ==> CanMake(ns, patched.api.cluster, e, k);
        MakeAll(ns, patched.api, e, 0, true);
      }
    }
  }

  lemma {:induction false} MakingIsFaultless(ns: string, api: Api, e: PlanVM, i: nat, clone: bool)
    requires i <= |e.targets| && Faultless(api)
    ensures Faultless(CreateTargets(ns, api, e, i, clone).api)
    decreases |e.targets| - i
  {
    if i < |e.targets| {
      var r := CreateTarget(ns, api, e, i, clone);
      MakeOne(ns, api, e, i, clone);
      CreateTargetsStep(ns, api, e, i, clone);
      if r.result.Ok? {
        MakingIsFaultless(ns, r.api, e, i + 1, clone);
      }
    }
  }
}
