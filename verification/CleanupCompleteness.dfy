/** A cleanup phase is only left when everything it had to delete is gone. */
module CleanupCompleteness {
  import opened Basics
  import opened Objects
  import opened ClusterApi
  import opened TaskSpec
  import opened PassEffects
  import opened MigrationController
  import opened MigrationRun

  /** Nothing is created: DataVolumes and claims only go. */
  predicate OnlyGoes(before: Cluster, after: Cluster) {
    after.dvs.Keys <= before.dvs.Keys && after.pvcs.Keys <= before.pvcs.Keys
  }

  // ----- Sources -----

  function KeyOf(s: SourcePVC): Key {
    Key(s.namespace, s.name)
  }

  predicate SlashFree(sources: seq<SourcePVC>) {
    forall i :: 0 <= i < |sources| ==> '/' !in sources[i].namespace
  }

  /** Namespace names hold no slash, so the joined name identifies the claim. */
  lemma {:induction false} JoinedNameIdentifies(a: string, b: string, c: string, d: string)
    requires '/' !in a && '/' !in c && a + "/" + b == c + "/" + d
    ensures a == c && b == d
  {
    var x, y := a + "/" + b, c + "/" + d;
    if a == "" {
      assert x[0] == '/' && y[0] == '/';
      assert c == "";
      assert x[1..] == b && y[1..] == d;
    } else {
      assert x[0] == a[0] && c != "" && y[0] == c[0];
      assert x[1..] == a[1..] + "/" + b && y[1..] == c[1..] + "/" + d;
      JoinedNameIdentifies(a[1..], b, c[1..], d);
      assert a == [a[0]] + a[1..] && c == [c[0]] + c[1..];
    }
  }

  /** The DataVolume is gone, and so is the claim unless the DataVolume took it along. */
  predicate SourceGone(before: Cluster, after: Cluster, s: SourcePVC) {
    KeyOf(s) !in after.dvs && (KeyOf(s) in before.dvs || KeyOf(s) !in after.pvcs)
  }

  lemma {:induction false} SourcesGone(api: Api, rest: seq<SourcePVC>, seen: set<string>, i: nat)
    requires SlashFree(rest) && DeleteSources(api, rest, seen).result.Ok?
    ensures OnlyGoes(api.cluster, DeleteSources(api, rest, seen).api.cluster)
    ensures i < |rest| && DedupKey(rest[i]) !in seen ==> SourceGone(api.cluster, DeleteSources(api, rest, seen).api.cluster, rest[i])
    decreases rest
  {
    if rest != [] {
      var j := if i == 0 then 0 else i - 1;
      if DedupKey(rest[0]) in seen {
        SourcesGone(api, rest[1..], seen, j);
      } else {
        var d := DeleteSource(api, rest[0]);
        SourcesGone(d.api, rest[1..], seen + {DedupKey(rest[0])}, j);
        if 0 < i < |rest| && DedupKey(rest[i]) == DedupKey(rest[0]) {
          JoinedNameIdentifies(rest[i].namespace, rest[i].name, rest[0].namespace, rest[0].name);
        }
      }
    }
  }

  /** A migration that reaches Completed with deleteSource has deleted every source it had to. */
  lemma CompletedLeavesNoSource(ctx: Context, t: TaskState, s: SourcePVC)
    requires t.phase == CleanupMigrationResources && RunPhase(ctx, t).state.phase == Completed
    requires ctx.plan.Some? && ctx.plan.value.deleteSource
    requires s in SourcesToDelete(ctx.plan.value.completed, t.completed) && SlashFree(SourcesToDelete(ctx.plan.value.completed, t.completed))
    ensures SourceGone(t.api.cluster, RunPhase(ctx, t).state.api.cluster, s)
  {
    var sources := SourcesToDelete(ctx.plan.value.completed, t.completed);
    var i :| 0 <= i < |sources| && sources[i] == s;
    SourcesGone(Leftovers(t.api).api, sources, {}, i);
  }

  lemma {:induction false} SourcesKeepOthers(api: Api, rest: seq<SourcePVC>, seen: set<string>, k: Key)
    requires forall i :: 0 <= i < |rest| ==> KeyOf(rest[i]) != k
    ensures k in api.cluster.dvs ==> k in DeleteSources(api, rest, seen).api.cluster.dvs
    ensures k in api.cluster.pvcs ==> k in DeleteSources(api, rest, seen).api.cluster.pvcs
    decreases rest
  {
    if rest != [] {
      if DedupKey(rest[0]) in seen {
        SourcesKeepOthers(api, rest[1..], seen, k);
      } else {
        SourceKeepsOthers(api, rest[0], k);
        SourcesKeepOthers(DeleteSource(api, rest[0]).api, rest[1..], seen + {DedupKey(rest[0])}, k);
      }
    }
  }

  lemma SourceKeepsOthers(api: Api, s: SourcePVC, k: Key)
    requires KeyOf(s) != k
    ensures k in api.cluster.dvs ==> k in DeleteSource(api, s).api.cluster.dvs
    ensures k in api.cluster.pvcs ==> k in DeleteSource(api, s).api.cluster.pvcs
  {
  }

  /** The plan's completed entries record the claim as a source of a VM this migration completed. */
  ghost predicate RecordedSource(plan: Plan, completed: seq<string>, k: Key) {
    exists e, c :: e in plan.completed && e.name in completed && c in e.sources && KeyOf(c) == k
  }

  /** Source cleanup, exactly: when a migration reaches Completed under deleteSource, an existing DataVolume, or a claim
      that has none, is gone if and only if the plan's completed entries record it for a VM the migration completed. A
      completed VM whose entry the plan has not moved yet keeps its sources for good. */
  lemma CompletedDeletesExactly(ctx: Context, t: TaskState, k: Key)
    requires t.phase == CleanupMigrationResources && RunPhase(ctx, t).state.phase == Completed
    requires ctx.plan.Some? && ctx.plan.value.deleteSource
    requires SlashFree(SourcesToDelete(ctx.plan.value.completed, t.completed))
    ensures
      var before, after := t.api.cluster, RunPhase(ctx, t).state.api.cluster;
      && (k in before.dvs ==> (k !in after.dvs <==> RecordedSource(ctx.plan.value, t.completed, k)))
      && (k !in before.dvs && k in before.pvcs ==> (k !in after.pvcs <==> RecordedSource(ctx.plan.value, t.completed, k)))
  {
    var sources := SourcesToDelete(ctx.plan.value.completed, t.completed);
    if RecordedSource(ctx.plan.value, t.completed, k) {
      var e, c :| e in ctx.plan.value.completed && e.name in t.completed && c in e.sources && KeyOf(c) == k;
      SourcesToDeleteAt(ctx.plan.value.completed, t.completed, c);
      CompletedLeavesNoSource(ctx, t, c);
    } else {
      forall i | 0 <= i < |sources| ensures KeyOf(sources[i]) != k {
        SourcesToDeleteAt(ctx.plan.value.completed, t.completed, sources[i]);
      }
      SourcesKeepOthers(Leftovers(t.api).api, sources, {}, k);
    }
  }

  // ----- A source that survives -----

  /** VM "a" or "b" with one disk, from its own source to its own destination. */
  function OneDisk(name: string, source: string, destination: string): PlanVM {
    PlanVM(name, [TargetPVC("disk", Some(destination), None)], [SourcePVC("disk", source, "ns")])
  }

  const SourceA := Key("ns", "a-old")
  const SourceB := Key("ns", "b-old")

  /** Both VMs are completed, but the plan has moved only the entry of "a" so far. */
  const LaggingPlan := Plan(false, [PLAN_FINALIZER], [], [OneDisk("b", "b-old", "b-new")], [OneDisk("a", "a-old", "a-new")], true, None, None)

  const Finishing := System(
    Migration.Migration("ns", 0, false, [MIGRATION_FINALIZER], CleanupMigrationResources, [], ["a", "b"], []),
    Some(LaggingPlan),
    Cluster(map[], map[], [], map[SourceA := DVSucceeded, SourceB := DVSucceeded], map[], map[], true))

  /** The migration completes for good while the source of "b", which it completed too, stays. */
  lemma LaggingPlanKeepsSource()
    ensures
      var after := Reconcile(Finishing, Outcome([], false, true, true));
      && Finishing.plan.value.deleteSource && "b" in Finishing.mig.completed
      && after.mig.phase == Completed && after.mig.completed == ["a", "b"]
      && SourceA !in after.cluster.dvs && SourceB in after.cluster.dvs
  {
    var o := Outcome([], false, true, true);
    var ctx := ContextOf(Finishing);
    var t := Loaded(Finishing, []).(phase := EntryPhase(ctx, Finishing.mig.phase));
    var a := OneDisk("a", "a-old", "a-new");
    var none: seq<PlanVM> := [];
    assert [a][1..] == none && a.name == Finishing.mig.completed[0];
    var sources := SourcesToDelete([a], Finishing.mig.completed);
    assert sources == a.sources + SourcesToDelete(none, Finishing.mig.completed) == [SourcePVC("disk", "a-old", "ns")];
    var r := Leftovers(t.api);
    var d := DeleteSource(r.api, sources[0]);
    assert d.api.cluster.dvs == map[SourceA := DVSucceeded, SourceB := DVSucceeded] - {SourceA};
    assert DeleteSources(r.api, sources, {}) == DeleteSources(d.api, sources[1..], {} + {DedupKey(sources[0])});
    assert SourceA.name[0] != SourceB.name[0];
    assert RunPhase(ctx, t).state.phase == Completed;
  }

  // ----- Destinations -----

  predicate TargetsGone(ns: string, after: Cluster, e: PlanVM) {
    forall i :: 0 <= i < |e.targets| && e.targets[i].destination.Some? ==> Key(ns, e.targets[i].destination.value) !in after.dvs
  }

  lemma {:induction false} DeleteTargetsGone(ns: string, api: Api, targets: seq<TargetPVC>)
    requires DeleteTargets(ns, api, targets).result.Ok?
    ensures
      var after := DeleteTargets(ns, api, targets).api.cluster;
      && OnlyGoes(api.cluster, after)
      && forall i :: 0 <= i < |targets| && targets[i].destination.Some? ==> Key(ns, targets[i].destination.value) !in after.dvs
    decreases targets
  {
    if targets != [] {
      if targets[0].destination.None? {
        DeleteTargetsGone(ns, api, targets[1..]);
      } else {
        var key := Key(ns, targets[0].destination.value);
        DeleteTargetsGone(ns, if key in api.cluster.dvs then DeleteDV(api.Called(), key).api else api.Called(), targets[1..]);
      }
    }
  }

  lemma {:induction false} DeleteEntriesGone(ns: string, api: Api, entries: seq<PlanVM>, name: string)
    requires DeleteEntries(ns, api, entries, name).result.Ok?
    ensures
      var after := DeleteEntries(ns, api, entries, name).api.cluster;
      && OnlyGoes(api.cluster, after)
      && forall i :: 0 <= i < |entries| && entries[i].name == name ==> TargetsGone(ns, after, entries[i])
    decreases entries
  {
    if entries != [] {
      if entries[0].name != name {
        DeleteEntriesGone(ns, api, entries[1..], name);
      } else {
        DeleteTargetsGone(ns, api, entries[0].targets);
        DeleteEntriesGone(ns, DeleteTargets(ns, api, entries[0].targets).api, entries[1..], name);
      }
    }
  }

  lemma {:induction false} DeleteCancelledGone(ctx: Context, api: Api, cancelled: seq<string>, e: PlanVM)
    requires DeleteCancelled(ctx, api, cancelled).result.Ok? && e in Cancellable(ctx.plan)
    ensures OnlyGoes(api.cluster, DeleteCancelled(ctx, api, cancelled).api.cluster)
    ensures e.name in cancelled ==> TargetsGone(ctx.namespace, DeleteCancelled(ctx, api, cancelled).api.cluster, e)
    decreases cancelled
  {
    if cancelled != [] {
      DeleteEntriesGone(ctx.namespace, api, Cancellable(ctx.plan), cancelled[0]);
      DeleteCancelledGone(ctx, DeleteEntries(ctx.namespace, api, Cancellable(ctx.plan), cancelled[0]).api, cancelled[1..], e);
    }
  }

  /** A migration that reaches Canceled has deleted every destination of every VM its last cancel pass recorded. */
  lemma CanceledLeavesNoTarget(ctx: Context, t: TaskState, e: PlanVM)
    requires t.phase == CleanupCancelledMigrations && RunPhase(ctx, t).state.phase == Canceled
    requires e in Cancellable(ctx.plan) && e.name in t.cancelled
    ensures TargetsGone(ctx.namespace, RunPhase(ctx, t).state.api.cluster, e)
  {
    DeleteCancelledGone(ctx, Leftovers(t.api).api, t.cancelled, e);
  }

  predicate NoTarget(ns: string, targets: seq<TargetPVC>, k: Key) {
    forall i :: 0 <= i < |targets| && targets[i].destination.Some? ==> Key(ns, targets[i].destination.value) != k
  }

  lemma {:induction false} DeleteTargetsKeep(ns: string, api: Api, targets: seq<TargetPVC>, k: Key)
    requires k in api.cluster.dvs && NoTarget(ns, targets, k)
    ensures k in DeleteTargets(ns, api, targets).api.cluster.dvs
    decreases targets
  {
    if targets != [] {
      if targets[0].destination.None? {
        DeleteTargetsKeep(ns, api, targets[1..], k);
      } else {
        var key := Key(ns, targets[0].destination.value);
        DeleteTargetsKeep(ns, if key in api.cluster.dvs then DeleteDV(api.Called(), key).api else api.Called(), targets[1..], k);
      }
    }
  }

  lemma {:induction false} DeleteEntriesKeep(ns: string, api: Api, entries: seq<PlanVM>, name: string, k: Key)
    requires k in api.cluster.dvs && forall i :: 0 <= i < |entries| && entries[i].name == name ==> NoTarget(ns, entries[i].targets, k)
    ensures k in DeleteEntries(ns, api, entries, name).api.cluster.dvs
    decreases entries
  {
    if entries != [] {
      if entries[0].name != name {
        DeleteEntriesKeep(ns, api, entries[1..], name, k);
      } else {
        DeleteTargetsKeep(ns, api, entries[0].targets, k);
        DeleteEntriesKeep(ns, DeleteTargets(ns, api, entries[0].targets).api, entries[1..], name, k);
      }
    }
  }

  lemma {:induction false} DeleteCancelledKeeps(ctx: Context, api: Api, cancelled: seq<string>, k: Key)
    requires k in api.cluster.dvs
    requires forall e :: e in Cancellable(ctx.plan) && e.name in cancelled ==> NoTarget(ctx.namespace, e.targets, k)
    ensures k in DeleteCancelled(ctx, api, cancelled).api.cluster.dvs
    decreases cancelled
  {
    if cancelled != [] {
      assert forall i :: 0 <= i < |Cancellable(ctx.plan)| ==> Cancellable(ctx.plan)[i] in Cancellable(ctx.plan);
      DeleteEntriesKeep(ctx.namespace, api, Cancellable(ctx.plan), cancelled[0], k);
      DeleteCancelledKeeps(ctx, DeleteEntries(ctx.namespace, api, Cancellable(ctx.plan), cancelled[0]).api, cancelled[1..], k);
    }
  }

  /** Entries of different VMs share no destination. */
  ghost predicate DistinctDestinations(entries: seq<PlanVM>) {
    forall e, f, i, j :: e in entries && f in entries && e.name != f.name && 0 <= i < |e.targets| && 0 <= j < |f.targets|
      ==> e.targets[i].destination.None? || e.targets[i].destination != f.targets[j].destination
  }

  /** Cancel cleanup, exactly: when a migration reaches Canceled, an existing destination of a VM is gone if and only if
      the VM is in the cancelled list it ended with. */
  lemma CanceledDeletesExactly(ctx: Context, t: TaskState, e: PlanVM, i: nat)
    requires t.phase == CleanupCancelledMigrations && RunPhase(ctx, t).state.phase == Canceled
    requires e in Cancellable(ctx.plan) && DistinctDestinations(Cancellable(ctx.plan))
    requires i < |e.targets| && e.targets[i].destination.Some? && Key(ctx.namespace, e.targets[i].destination.value) in t.api.cluster.dvs
    ensures Key(ctx.namespace, e.targets[i].destination.value) !in RunPhase(ctx, t).state.api.cluster.dvs <==> e.name in t.cancelled
  {
    if e.name in t.cancelled {
      CanceledLeavesNoTarget(ctx, t, e);
    } else {
      var k := Key(ctx.namespace, e.targets[i].destination.value);
      forall f | f in Cancellable(ctx.plan) && f.name in t.cancelled ensures NoTarget(ctx.namespace, f.targets, k) {
        assert f.name != e.name;
      }
      DeleteCancelledKeeps(ctx, Leftovers(t.api).api, t.cancelled, k);
    }
  }

  /** The list is replaced by each cancel pass: a VM that an earlier pass cancelled, and that is not running any more,
      is dropped from it. */
  lemma EarlierCancelledIsForgotten(ctx: Context, t: TaskState, name: string)
    requires t.phase == Canceling && RunPhase(ctx, t).ok && name !in RunningNames(t.running)
    ensures name !in RunPhase(ctx, t).state.cancelled
  {
    CancelLoopLists(ctx, t, t.running, [], []);
    var p := CancelLoop(ctx, t, t.running, [], []);
    assert RunPhase(ctx, t) == p;
    var none: seq<Running> := [];
    var nobody: seq<string> := [];
    assert RunningNames(none) == nobody;
    var left, gone, all := multiset(RunningNames(p.state.running)), multiset(p.state.cancelled), multiset(RunningNames(t.running));
    assert left + gone == multiset(RunningNames(none)) + multiset(nobody) + all;
    assert multiset(RunningNames(none)) + multiset(nobody) == multiset{};
    assert left + gone == all;
    assert gone <= all;
    assert name in p.state.cancelled ==> name in gone;
    assert name in all ==> name in RunningNames(t.running);
  }
}
