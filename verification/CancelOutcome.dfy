/** Which destinations are gone when a cancelled migration ends, over whole runs. */
module CancelOutcome {
  import opened Basics
  import opened Objects
  import opened VolumeRewrite
  import opened Confinement
  import opened ClusterApi
  import opened TaskSpec
  import opened PassEffects
  import opened MigrationController
  import opened MigrationRun
  import opened ClaimSafety
  import opened CleanupCompleteness

  lemma DrainingLoop(ctx: Context, t: TaskState)
    requires t.phase == Canceling && CancelLoop(ctx, t, t.running, [], []).state.phase == CleanupCancelledMigrations
    ensures multiset(CancelLoop(ctx, t, t.running, [], []).state.cancelled) == multiset(RunningNames(t.running))
  {
    CancelLoopLists(ctx, t, t.running, [], []);
    var p := CancelLoop(ctx, t, t.running, [], []);
    var none: seq<Running> := [];
    var nobody: seq<string> := [];
    assert RunningNames(none) == nobody;
    assert multiset(nobody) == multiset{};
    assert p.ok && p.state.running == none;
    assert multiset(RunningNames(p.state.running)) + multiset(p.state.cancelled) == multiset(RunningNames(none)) + multiset(nobody) + multiset(RunningNames(t.running));
    assert multiset(p.state.cancelled) == multiset(nobody) + multiset(p.state.cancelled) == multiset(nobody) + multiset(nobody) + multiset(RunningNames(t.running));
  }

  /** The pass that moves a migration to CleanupCancelledMigrations lists exactly the VMs it found running. */
  lemma LastCancelPass(s: System, o: Outcome)
    requires s.mig.phase != CleanupCancelledMigrations && Reconcile(s, o).mig.phase == CleanupCancelledMigrations
    ensures EntersCanceling(s, ReconcilePass(o))
    ensures multiset(Reconcile(s, o).mig.cancelled) == multiset(RunningNames(s.mig.running))
  {
    var ctx, t := ContextOf(s), Entered(s, o);
    if Runs(s, o) {
      RunningPass(s, o);
      RunPhaseShape(ctx, t);
      assert t.phase == Canceling;
      assert RunPhase(ctx, t) == CancelLoop(ctx, t, t.running, [], []);
      DrainingLoop(ctx, t);
    } else {
      IdlePass(s, o);
    }
  }

  lemma CleanupKeepsList(s: System, o: Outcome)
    requires s.mig.phase == CleanupCancelledMigrations
    ensures Reconcile(s, o).mig.cancelled == s.mig.cancelled && !EntersCanceling(s, ReconcilePass(o))
  {
    RunPhaseShape(ContextOf(s), Entered(s, o));
  }

  lemma OriginStep(s: System, ev: Event, s': System, table: Table)
    requires Next(s, ev, s', table) && s'.mig.phase == CleanupCancelledMigrations
    ensures s.mig.phase == CleanupCancelledMigrations ==> s'.mig.cancelled == s.mig.cancelled && !EntersCanceling(s, ev)
    ensures s.mig.phase != CleanupCancelledMigrations ==> EntersCanceling(s, ev) && multiset(s'.mig.cancelled) == multiset(RunningNames(s.mig.running))
  {
    if ev.ReconcilePass? {
      if s.mig.phase == CleanupCancelledMigrations {
        CleanupKeepsList(s, ev.o);
      } else {
        LastCancelPass(s, ev.o);
      }
    }
  }

  /** In every run that reaches CleanupCancelledMigrations, the cancelled list is what was running when the last
      cancel pass began; that pass went through, and none has run since. */
  lemma {:induction false} CancelledListOrigin(states: seq<System>, events: seq<Event>, table: Table, i: nat) returns (j: nat)
    requires IsRun(states, events, table) && i < |states|
    requires states[0].mig.phase != CleanupCancelledMigrations && states[i].mig.phase == CleanupCancelledMigrations
    ensures j < i && EntersCanceling(states[j], events[j]) && states[j].mig.phase != CleanupCancelledMigrations
    ensures multiset(states[i].mig.cancelled) == multiset(RunningNames(states[j].mig.running))
    ensures forall k :: j < k < i ==> states[k].mig.phase == CleanupCancelledMigrations && !EntersCanceling(states[k], events[k])
  {
    OriginStep(states[i - 1], events[i - 1], states[i], table);
    if states[i - 1].mig.phase == CleanupCancelledMigrations {
      j := CancelledListOrigin(states, events, table, i - 1);
    } else {
      j := i - 1;
    }
  }

  lemma MatchingDestinations(plan: Option<Plan>, table: Table)
    requires WellFormed(table) && PlanMatches(plan, table)
    ensures DistinctDestinations(Cancellable(plan))
  {
    CancellableMatches(plan, table, "");
    forall e, f, i, j | e in Cancellable(plan) && f in Cancellable(plan) && e.name != f.name && 0 <= i < |e.targets| && 0 <= j < |f.targets|
      ensures e.targets[i].destination != f.targets[j].destination
    {
      assert EntryMatches(e, table) && EntryMatches(f, table);
      assert table[e.name][i] == Routes(e)[i] && table[f.name][j] == Routes(f)[j];
    }
  }

  /** Which destinations go, exactly: in every run, when a pass takes a migration to Canceled, an existing destination
      of a planned VM is gone if and only if the VM was in the running list the last cancel pass started from. */
  lemma CancelDeletesExactly(states: seq<System>, events: seq<Event>, table: Table, i: nat, e: PlanVM, n: nat) returns (j: nat)
    requires IsRun(states, events, table) && CancelInvariant(states[0], table) && states[0].mig.phase != CleanupCancelledMigrations
    requires i < |events| && events[i].ReconcilePass? && states[i].mig.phase == CleanupCancelledMigrations
    requires Reconciled(states[i], events[i].o).phase == Canceled
    requires e in Cancellable(states[i].plan) && n < |e.targets|
    ensures j < i && EntersCanceling(states[j], events[j]) && forall k :: j < k < i ==> !EntersCanceling(states[k], events[k])
    ensures e.targets[n].destination.Some?
    ensures
      var k := Key(states[i].mig.namespace, e.targets[n].destination.value);
      k in states[i].cluster.dvs ==> (k !in states[i + 1].cluster.dvs <==> e.name in RunningNames(states[j].mig.running))
  {
    var s, o := states[i], events[i].o;
    CancelInvariantHolds(states, events, table, i);
    assert Next(s, events[i], states[i + 1], table);
    j := CancelledListOrigin(states, events, table, i);
    CancellableMatches(s.plan, table, "");
    MatchingDestinations(s.plan, table);
    assert EntryMatches(e, table);
    var k := Key(s.mig.namespace, e.targets[n].destination.value);
    if k in s.cluster.dvs {
      CanceledDeletesExactly(ContextOf(s), Entered(s, o), e, n);
      assert e.name in multiset(s.mig.cancelled) <==> e.name in multiset(RunningNames(states[j].mig.running));
    }
  }

  // ----- A run that leaves a destination behind -----

  const EntryA := OneDisk("a", "a-old", "a-new")
  const EntryB := OneDisk("b", "b-old", "b-new")
  const TargetA := Key("ns", "a-new")
  const TargetB := Key("ns", "b-new")

  function DiskOn(name: string, claim: string): VM {
    VM(name, [Volume("disk", DVSource(claim))], [], UpdateStrategy.Migration, [], true)
  }

  /** VM "a" is stopped, VM "b" runs. */
  function ClusterOn(a: string, b: string, dvs: map<Key, DVPhase>): Cluster {
    Cluster(map["a" := DiskOn("a", a), "b" := DiskOn("b", b)], map["b" := VMI(true)], [], dvs, map[], map[], true)
  }

  const BothTargets: map<Key, DVPhase> := map[TargetA := DVSucceeded, TargetB := DVSucceeded]
  const ThePlan := Plan(false, [PLAN_FINALIZER], [], [EntryA, EntryB], [], true, None, None)
  const AllGood := Outcome([], false, true, true)

  function MigrationIn(phase: Phase, running: seq<Running>, cancelled: seq<string>): Migration {
    Migration.Migration("ns", 0, true, [MIGRATION_FINALIZER], phase, running, [], cancelled)
  }

  const R0 := System(MigrationIn(WaitForLiveMigrationToComplete, [Running("a", ""), Running("b", "")], []), Some(ThePlan), ClusterOn("a-new", "b-new", BothTargets))
  const R1 := System(MigrationIn(Canceling, [Running("b", "")], ["a"]), Some(ThePlan), ClusterOn("a-old", "b-old", BothTargets))
  const R2 := System(MigrationIn(CleanupCancelledMigrations, [], ["b"]), Some(ThePlan), ClusterOn("a-old", "b-old", BothTargets))
  const R3 := System(MigrationIn(Canceled, [], ["b"]), Some(ThePlan), ClusterOn("a-old", "b-old", BothTargets - {TargetB}))

  lemma DiskGoesBack(name: string, source: string, destination: string)
    requires name != "" && source != destination
    ensures RevertedVM(DiskOn(name, destination), OneDisk(name, source, destination)) == Ok(DiskOn(name, source))
  {
    var vm, e := DiskOn(name, destination), OneDisk(name, source, destination);
    assert Recover(vm, e).Ok? && Recover(vm, e).value.sources == e.sources;
    var q := Revert(e).value;
    assert q.targets == [TargetPVC("disk", Some(source), None)];
    assert TargetFor(q.targets, "disk") == Some(TargetPVC("disk", Some(source), None));
    assert Prepare(vm, q).Ok?;
    assert Prepare(vm, q).value.volumes == [Volume("disk", DVSource(source))];
    assert Prepare(vm, q).value.templates == [];
  }

  lemma TheEntries(ctx: Context)
    requires ctx.plan == Some(ThePlan)
    ensures FindEntry(Cancellable(ctx.plan), "a") == Some(EntryA) && FindEntry(Cancellable(ctx.plan), "b") == Some(EntryB)
  {
    assert Cancellable(ctx.plan) == [EntryA, EntryB];
    assert [EntryA, EntryB][1..] == [EntryB];
  }

  lemma NamesDiffer()
    ensures "a" != "b" && "a-old" != "a-new" && "b-old" != "b-new" && TargetA != TargetB
  {
    assert "a"[0] != "b"[0] && "a-old"[2] != "a-new"[2] && "b-old"[2] != "b-new"[2] && TargetA.name[0] != TargetB.name[0];
  }

  /** The first pass puts both VMs back; only the stopped one is cancelled at once. */
  lemma FirstCancels(ctx: Context, api: Api)
    requires ctx.plan == Some(ThePlan) && api == Api(R0.cluster, [], [])
    ensures
      var (api1, verdict) := CancelOne(ctx, api, "a");
      api1.cluster == ClusterOn("a-old", "b-new", BothTargets) && api1.faults == [] && verdict == NowCancelled
  {
    NamesDiffer();
    TheEntries(ctx);
    DiskGoesBack("a", "a-old", "a-new");
    var api1 := CancelOne(ctx, api, "a").0;
    assert api1.cluster.vms == map["a" := DiskOn("a", "a-old"), "b" := DiskOn("b", "b-new")];
  }

  lemma SecondStays(ctx: Context, api: Api)
    requires ctx.plan == Some(ThePlan) && api.cluster == ClusterOn("a-old", "b-new", BothTargets) && api.faults == []
    ensures
      var (api1, verdict) := CancelOne(ctx, api, "b");
      api1.cluster == R1.cluster && api1.faults == [] && verdict == StillRunning
  {
    NamesDiffer();
    TheEntries(ctx);
    DiskGoesBack("b", "b-old", "b-new");
    var vm := DiskOn("b", "b-new");
    assert ClaimName(vm.volumes[0]) == "b-new" && References(vm, "b-new");
    assert EntryB.targets[0].destination == Some("b-new");
    assert ReferencesTargets(vm, EntryB);
    var api1 := CancelOne(ctx, api, "b").0;
    assert api1.cluster.vms == map["a" := DiskOn("a", "a-old"), "b" := DiskOn("b", "b-old")];
  }

  lemma SecondCancels(ctx: Context, api: Api)
    requires ctx.plan == Some(ThePlan) && api.cluster == R1.cluster && api.faults == []
    ensures
      var (api1, verdict) := CancelOne(ctx, api, "b");
      api1.cluster == R1.cluster && verdict == NowCancelled
  {
    NamesDiffer();
    TheEntries(ctx);
    var vm := DiskOn("b", "b-old");
    assert ClaimName(vm.volumes[0]) == "b-old";
    assert !ReferencesTargets(vm, EntryB);
    assert SourceMatched(vm.volumes, EntryB.sources[0]);
    assert OnSourceVolumes(vm, Cancellable(ctx.plan), "b");
  }

  lemma FirstLoop(ctx: Context, t: TaskState)
    requires ctx.plan == Some(ThePlan) && t.api == Api(R0.cluster, [], []) && t.running == R0.mig.running
    ensures
      var p := CancelLoop(ctx, t, t.running, [], []);
      p.state == t.(running := R1.mig.running, cancelled := ["a"], api := p.state.api, requeue := PollReQ) && p.state.api.cluster == R1.cluster
  {
    FirstCancels(ctx, t.api);
    var api1 := CancelOne(ctx, t.api, "a").0;
    SecondStays(ctx, api1);
    var api2 := CancelOne(ctx, api1, "b").0;
    var b := [Running("b", "")];
    assert t.running[1..] == b && t.running[0].name == "a" && b[1..] == [];
    assert CancelLoop(ctx, t, t.running, [], []) == CancelLoop(ctx, t.(api := api1), b, [], [] + ["a"]);
    assert CancelLoop(ctx, t.(api := api1), b, [], [] + ["a"]) == CancelLoop(ctx, t.(api := api2), b[1..], [] + b, [] + ["a"]);
  }

  lemma FirstPass()
    ensures Reconcile(R0, AllGood) == R1
  {
    StoredCancelPass(R0, AllGood);
    FirstLoop(ContextOf(R0), Entered(R0, AllGood));
  }

  lemma SecondPass()
    ensures Reconcile(R1, AllGood) == R2
  {
    var ctx, t := ContextOf(R1), Entered(R1, AllGood);
    SecondCancels(ctx, t.api);
    var api1 := CancelOne(ctx, t.api, "b").0;
    assert t.running[1..] == [] && t.running[0].name == "b";
    assert CancelLoop(ctx, t, t.running, [], []) == CancelLoop(ctx, t.(api := api1), t.running[1..], [], [] + ["b"]);
  }

  lemma ThirdPass()
    ensures Reconcile(R2, AllGood) == R3
  {
    NamesDiffer();
    var ctx, t := ContextOf(R2), Entered(R2, AllGood);
    var entries, rest := [EntryA, EntryB], [EntryB];
    assert Cancellable(ctx.plan) == entries && entries[1..] == rest && rest[1..] == [];
    var r := Leftovers(t.api);
    assert DeleteEntries("ns", r.api, entries, "b") == DeleteEntries("ns", r.api, rest, "b");
    var d := DeleteTargets("ns", r.api, EntryB.targets);
    assert EntryB.targets[1..] == [];
    assert d.result.Ok? && d.api.cluster.dvs == BothTargets - {TargetB};
    assert DeleteEntries("ns", r.api, rest, "b") == DeleteEntries("ns", d.api, rest[1..], "b");
    assert t.cancelled[1..] == [] && t.cancelled[0] == "b";
    assert DeleteCancelled(ctx, r.api, t.cancelled).api.cluster == d.api.cluster;
  }

  const TheTable: Table := map["a" := [Route("disk", "a-old", "a-new")], "b" := [Route("disk", "b-old", "b-new")]]

  /** Neither VM names the destination any more. */
  lemma NobodyUsesIt()
    ensures forall n :: n in R3.cluster.vms ==> !References(R3.cluster.vms[n], "a-new")
  {
    NamesDiffer();
    assert "b-old"[0] != "a-new"[0];
    forall n | n in R3.cluster.vms ensures !References(R3.cluster.vms[n], "a-new") {
      var vm := if n == "a" then DiskOn("a", "a-old") else DiskOn("b", "b-old");
      assert R3.cluster.vms[n] == vm;
      assert ClaimName(vm.volumes[0]) != "a-new";
    }
  }

  lemma ThePasses()
    ensures IsRun([R0, R1, R2, R3], [ReconcilePass(AllGood), ReconcilePass(AllGood), ReconcilePass(AllGood)], TheTable)
  {
    FirstPass();
    SecondPass();
    ThirdPass();
    var states, ev := [R0, R1, R2, R3], ReconcilePass(AllGood);
    assert Next(states[0], ev, states[1], TheTable) && Next(states[1], ev, states[2], TheTable) && Next(states[2], ev, states[3], TheTable);
  }

  /** A sound run that cancels "a" in its first pass and "b" in its second ends Canceled, for good, with both VMs back
      on their sources and the destination of "a" still there. */
  lemma ForgottenTargetStays()
    ensures
      var states, events := [R0, R1, R2, R3], [ReconcilePass(AllGood), ReconcilePass(AllGood), ReconcilePass(AllGood)];
      && IsRun(states, events, TheTable) && CancelInvariant(states[0], TheTable)
      && states[1].mig.cancelled == ["a"] && states[2].mig.cancelled == ["b"] && states[3].mig.phase == Canceled
      && TargetA in states[3].cluster.dvs && TargetB !in states[3].cluster.dvs
      && forall n :: n in states[3].cluster.vms ==> !References(states[3].cluster.vms[n], "a-new")
  {
    ThePasses();
    NamesDiffer();
    NobodyUsesIt();
    SoundStart();
  }

  lemma TwoMoves(a: Route, b: Route)
    requires |{a.source, a.destination, b.source, b.destination, ""}| == 5
    ensures WellFormed(map["a" := [a], "b" := [b]])
  {
  }

  lemma TheTableIsWellFormed()
    ensures WellFormed(TheTable)
  {
    var a, b := Route("disk", "a-old", "a-new"), Route("disk", "b-old", "b-new");
    NamesDiffer();
    assert "a-old"[0] != "b-new"[0] && "b-old"[0] != "a-new"[0] && "a-old"[0] != "b-old"[0] && "a-new"[0] != "b-new"[0];
    TwoMoves(a, b);
  }

  lemma SoundStart()
    ensures CancelInvariant(R0, TheTable)
  {
    TheTableIsWellFormed();
    assert Routes(EntryA) == TheTable["a"] && Routes(EntryB) == TheTable["b"];
    assert EntryMatches(EntryA, TheTable) && EntryMatches(EntryB, TheTable);
    DiskConfined("a", "a-old", "a-new", TheTable);
    DiskConfined("b", "b-old", "b-new", TheTable);
  }

  lemma DiskConfined(name: string, source: string, destination: string, table: Table)
    requires name in table && table[name] == [Route("disk", source, destination)]
    ensures Confined(DiskOn(name, destination), RoutesOf(table, name), table)
  {
    assert OnRoute(destination, table[name][0]);
  }
}
