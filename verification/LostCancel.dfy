/** The one family of runs in which deleteSource cleanup deletes a claim in use: a cancel pass puts a VM back on its
    source, its writes are lost, and the plan's own deletion then lets the migration carry on to completion. */
module LostCancel {
  import opened Basics
  import opened Objects
  import opened VolumeRewrite
  import opened Confinement
  import opened ClusterApi
  import opened TaskSpec
  import opened PassEffects
  import opened MigrationController
  import opened MigrationRun
  import opened ClaimSafety

  const Moves0 := Route("disk", "old", "new")
  const Table0: Table := map["a" := [Moves0]]
  const Entry0 := PlanVM("a", [TargetPVC("disk", Some("new"), None)], [SourcePVC("disk", "old", "ns")])
  const OldKey := Key("ns", "old")

  function VMOn(claim: string): VM {
    VM("a", [Volume("disk", DVSource(claim))], [], UpdateStrategy.Migration, [], true)
  }

  function VMIMOf(name: string): VMIM {
    VMIM(name, 0, Succeeded, Some(MigrationState(true, false)))
  }

  /** Both VMs have moved live; the record of "a" was kept by a pass that failed on "b". */
  function ClusterWith(vm: VM): Cluster {
    Cluster(map["a" := vm], map["a" := VMI(true), "b" := VMI(true)], [VMIMOf("a"), VMIMOf("b")], map[OldKey := DVSucceeded], map[], map[], true)
  }

  const Mig0 := Migration.Migration("ns", 0, true, [MIGRATION_FINALIZER], WaitForLiveMigrationToComplete, [Running("a", ""), Running("b", "")], ["a"], [])

  const Plan0 := Plan(false, [PLAN_FINALIZER], [], [Entry0], [], true, None, None)
  const Plan1 := Plan(true, [PLAN_FINALIZER], [], [], [Entry0], true, None, None)

  const Lost := Outcome([], false, false, false)
  const Kept := Outcome([], false, true, true)

  const S0 := System(Mig0, Some(Plan0), ClusterWith(VMOn("new")))
  const S1 := System(Mig0, Some(Plan0), ClusterWith(VMOn("old")))
  const S2 := System(Mig0, Some(Plan1), ClusterWith(VMOn("old")))
  const S3 := System(Mig0.(phase := CleanupMigrationResources, running := [], completed := ["a", "a", "b"]), Some(Plan1), ClusterWith(VMOn("old")))

  lemma FlippedVM()
    ensures RevertedVM(VMOn("new"), Entry0) == Ok(VMOn("old"))
  {
    var vm := VMOn("new");
    assert Recover(vm, Entry0).Ok? && Recover(vm, Entry0).value.sources == Entry0.sources;
    var q := Revert(Entry0).value;
    assert q.targets == [TargetPVC("disk", Some("old"), None)];
    assert TargetFor(q.targets, "disk") == Some(TargetPVC("disk", Some("old"), None));
    assert Prepare(vm, q).Ok?;
    assert Prepare(vm, q).value.volumes == [Volume("disk", DVSource("old"))];
    assert Prepare(vm, q).value.templates == [];
  }

  lemma OnTargets()
    ensures ReferencesTargets(VMOn("new"), Entry0) && !OnSourceVolumes(VMOn("new"), [Entry0], "a")
  {
    var vm := VMOn("new");
    assert ClaimName(vm.volumes[0]) == "new" && References(vm, "new");
    assert Entry0.targets[0].destination == Some("new");
    assert FindEntry([Entry0], "a") == Some(Entry0);
  }

  /** The cancel handler reverts "a", then fails on "b". */
  lemma CancelHandler(ctx: Context, api: Api)
    requires Cancellable(ctx.plan) == [Entry0] && api == Api(S0.cluster, [], [])
    ensures
      var (api1, verdict) := CancelOne(ctx, api, "a");
      api1.cluster == S1.cluster && api1.faults == [] && verdict == StillRunning
  {
    OnTargets();
    FlippedVM();
    assert FindEntry([Entry0], "a") == Some(Entry0);
    var api1 := CancelOne(ctx, api, "a").0;
    assert api1.cluster.vms == map["a" := VMOn("old")];
  }

  lemma CancelHandlerFails(ctx: Context, api: Api)
    requires api.cluster == S1.cluster && api.faults == []
    ensures CancelOne(ctx, api, "b").0.cluster == S1.cluster && CancelOne(ctx, api, "b").1 == CancelError
  {
  }

  lemma CancelLoopStops(ctx: Context, t: TaskState)
    requires Cancellable(ctx.plan) == [Entry0] && t.api == Api(S0.cluster, [], []) && t.running == Mig0.running
    ensures CancelLoop(ctx, t, t.running, [], []).state.api.cluster == S1.cluster
  {
    CancelHandler(ctx, t.api);
    var api1 := CancelOne(ctx, t.api, "a").0;
    CancelHandlerFails(ctx, api1);
    var rest := [Running("b", "")];
    assert t.running[1..] == rest && t.running[0].name == "a";
    assert CancelLoop(ctx, t, t.running, [], []) == CancelLoop(ctx, t.(api := api1), rest, [] + [Running("a", "")], []);
  }

  /** A cancel pass whose writes are lost changes nothing but the cluster. */
  lemma LostCancelPass(s: System, o: Outcome)
    requires EntersCanceling(s, ReconcilePass(o)) && !o.metaOk
    ensures
      var t := Entered(s, o);
      Reconcile(s, o) == System(s.mig, s.plan, CancelLoop(ContextOf(s), t, t.running, [], []).state.api.cluster)
  {
  }

  lemma CancelPassReverts()
    ensures Reconcile(S0, Lost) == S1 && EntersCanceling(S0, ReconcilePass(Lost))
  {
    assert EntersCanceling(S0, ReconcilePass(Lost));
    LostCancelPass(S0, Lost);
    CancelLoopStops(ContextOf(S0), Entered(S0, Lost));
  }

  lemma BothFinished()
    ensures LiveDone(S2.cluster.vmims, "a", 0) && LiveDone(S2.cluster.vmims, "b", 0)
  {
    assert S2.cluster.vmims[1..] == [VMIMOf("b")];
  }

  /** Held by the plan's deletion, the migration waits instead of cancelling, and finds both VMs finished. */
  lemma WaitPassCompletes()
    ensures Reconcile(S2, Kept) == S3
  {
    var ctx, t := ContextOf(S2), Entered(S2, Kept);
    assert t.phase == WaitForLiveMigrationToComplete;
    BothFinished();
    var rest := [Running("b", "")];
    assert t.running[1..] == rest && t.running[0].name == "a" && rest[0].name == "b";
    var a1, done1 := WaitOne(ctx, t.api, t.running[0]).0, WaitOne(ctx, t.api, t.running[0]).1;
    assert a1 == t.api && done1 == Done;
    assert WaitOne(ctx, t.api, rest[0]) == (t.api, Done);
    var t1 := t.(completed := ["a"] + ["a"]);
    assert WaitLoop(ctx, t, t.running, []) == WaitLoop(ctx, t1, rest, []);
    assert WaitLoop(ctx, t1, rest, []) == WaitLoop(ctx, t1.(completed := t1.completed + ["b"]), rest[1..], []);
    assert t1.completed + ["b"] == ["a", "a", "b"];
  }

  /** Source cleanup then deletes the claim the VM was put back on. */
  lemma CleanupPassDeletes()
    ensures Reconciled(S3, Kept).api.writes == [DeletedDV(OldKey)]
  {
    var ctx, t := ContextOf(S3), Entered(S3, Kept);
    assert t.phase == CleanupMigrationResources;
    var sources := SourcesToDelete([Entry0], S3.mig.completed);
    assert "a" == S3.mig.completed[0];
    var none: seq<PlanVM> := [];
    assert [Entry0][1..] == none && SourcesToDelete(none, S3.mig.completed) == [];
    assert sources == [SourcePVC("disk", "old", "ns")];
    var r := Leftovers(t.api);
    var d := DeleteSource(r.api, sources[0]);
    assert d.api.writes == [DeletedDV(OldKey)];
    assert DeleteSources(r.api, sources, {}) == DeleteSources(d.api, sources[1..], {} + {DedupKey(sources[0])});
  }

  function Run0(): (seq<System>, seq<Event>) {
    ([S0, S1, S2, S3, Reconcile(S3, Kept)], [ReconcilePass(Lost), Environment, ReconcilePass(Kept), ReconcilePass(Kept)])
  }

  lemma StartIsSound()
    ensures SwapInvariant(S0, Table0) && PlanMatches(Some(Plan1), Table0)
  {
    var vm := VMOn("new");
    assert RoutesOf(Table0, "a") == [Moves0];
    assert Routes(Entry0) == [Moves0];
    assert EntryMatches(Entry0, Table0);
    assert [Moves0][0].volume == vm.volumes[0].name && OnRoute("new", [Moves0][0]);
    assert Confined(vm, [Moves0], Table0);
    assert ClaimName(vm.volumes[0]) != "old";
    assert OffSources(vm, [Moves0]);
  }

  lemma PlanIsMarked()
    ensures EnvironmentStep(S1, S2, Table0)
  {
    StartIsSound();
  }

  /** Without the condition of SourceCleanupIsSafe a run that starts soundly deletes the claim its VM names. */
  lemma HeldPlanAfterLostCancel()
    ensures
      var (states, events) := Run0();
      && IsRun(states, events, Table0) && SwapInvariant(states[0], Table0)
      && EntersCanceling(states[0], events[0]) && PlanHoldsDeletion(states[3].plan)
      && states[3].mig.phase == CleanupMigrationResources
      && Reconciled(states[3], events[3].o).api.writes == [DeletedDV(OldKey)]
      && "a" in states[3].cluster.vms && References(states[3].cluster.vms["a"], OldKey.name)
  {
    var (states, events) := Run0();
    StartIsSound();
    CancelPassReverts();
    WaitPassCompletes();
    CleanupPassDeletes();
    PlanIsMarked();
    assert Next(S0, events[0], S1, Table0) && Next(S1, events[1], S2, Table0) && Next(S2, events[2], S3, Table0) && Next(S3, events[3], states[4], Table0);
    assert ClaimName(VMOn("old").volumes[0]) == "old";
  }
}
