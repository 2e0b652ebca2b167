/** Which VMs a wait pass finds finished, in terms of the cluster's objects. */
module WaitOutcome {
  import opened Basics
  import opened Objects
  import Confinement
  import opened ClusterApi
  import opened TaskSpec
  import opened PassEffects
  import opened MigrationController
  import opened MigrationRun
  import opened ClaimSafety

  // ----- Finished, said of the objects -----

  /** A VirtualMachineInstanceMigration that counts: of this VM, made since the migration began, and not failed. */
  predicate Counts(v: VMIM, name: string, created: nat) {
    v.vmiName == name && v.created >= created && v.phase != Failed
  }

  predicate DecidesAt(vmims: seq<VMIM>, name: string, created: nat, k: int) {
    0 <= k < |vmims| && Counts(vmims[k], name, created) && forall j :: 0 <= j < k ==> !Counts(vmims[j], name, created)
  }

  /** The first one that counts has completed and has not failed. */
  ghost predicate MigratedLive(vmims: seq<VMIM>, name: string, created: nat) {
    exists k :: DecidesAt(vmims, name, created, k) && vmims[k].state.Some? && vmims[k].state.value.completed && !vmims[k].state.value.failed
  }

  /** Every destination is named, and its DataVolume exists and is past pending. */
  predicate DisksReady(ns: string, dvs: map<Key, DVPhase>, targets: seq<TargetPVC>) {
    forall i :: 0 <= i < |targets| ==>
      && targets[i].destination.Some?
      && Key(ns, targets[i].destination.value) in dvs && dvs[Key(ns, targets[i].destination.value)] != DVPending
  }

  predicate FirstAt(entries: seq<PlanVM>, name: string, k: int) {
    0 <= k < |entries| && entries[k].name == name && forall j :: 0 <= j < k ==> entries[j].name != name
  }

  /** The first of the plan's ready and in-progress entries of that name has all its disks. */
  ghost predicate CopiedOffline(ctx: Context, dvs: map<Key, DVPhase>, name: string) {
    ctx.plan.Some? &&
    var entries := ctx.plan.value.ready + ctx.plan.value.inProgress;
    exists k :: FirstAt(entries, name, k) && DisksReady(ctx.namespace, dvs, entries[k].targets)
  }

  /** A VM with a VMI has migrated live; one without has its disks copied. */
  ghost predicate HasMoved(ctx: Context, cluster: Cluster, name: string) {
    if name in cluster.vmis then MigratedLive(cluster.vmims, name, ctx.created) else CopiedOffline(ctx, cluster.dvs, name)
  }

  // ----- The checks decide exactly that -----

  lemma DecidesLater(vmims: seq<VMIM>, name: string, created: nat, k: int)
    requires vmims != [] && !Counts(vmims[0], name, created)
    ensures DecidesAt(vmims, name, created, k) <==> DecidesAt(vmims[1..], name, created, k - 1)
  {
    if DecidesAt(vmims[1..], name, created, k - 1) {
      assert forall j :: 0 < j < k ==> vmims[j] == vmims[1..][j - 1];
    }
  }

  lemma {:induction false} LiveDoneIff(vmims: seq<VMIM>, name: string, created: nat)
    ensures LiveDone(vmims, name, created) <==> MigratedLive(vmims, name, created)
  {
    if vmims != [] {
      LiveDoneIff(vmims[1..], name, created);
      if Counts(vmims[0], name, created) {
        assert DecidesAt(vmims, name, created, 0);
      } else {
        forall k ensures DecidesAt(vmims, name, created, k) <==> DecidesAt(vmims[1..], name, created, k - 1) {
          DecidesLater(vmims, name, created, k);
        }
        if MigratedLive(vmims[1..], name, created) {
          var k :| DecidesAt(vmims[1..], name, created, k) && vmims[1..][k].state.Some? && vmims[1..][k].state.value.completed && !vmims[1..][k].state.value.failed;
          assert DecidesAt(vmims, name, created, k + 1) && vmims[k + 1] == vmims[1..][k];
        }
      }
    }
  }

  lemma {:induction false} OfflineDoneIff(ns: string, api: Api, targets: seq<TargetPVC>)
    requires OfflineDone(ns, api, targets).result.Ok?
    ensures OfflineDone(ns, api, targets).result.value <==> DisksReady(ns, api.cluster.dvs, targets)
    decreases targets
  {
    if targets != [] {
      var key := Key(ns, targets[0].destination.value);
      if key in api.cluster.dvs && api.cluster.dvs[key] != DVPending {
        OfflineDoneIff(ns, api.Called(), targets[1..]);
        assert forall i :: 0 < i < |targets| ==> targets[i] == targets[1..][i - 1];
      }
    }
  }

  lemma {:induction false} FirstEntry(entries: seq<PlanVM>, name: string) returns (k: int)
    ensures FindEntry(entries, name).Some? ==> FirstAt(entries, name, k) && entries[k] == FindEntry(entries, name).value
    ensures FindEntry(entries, name).None? ==> forall j :: 0 <= j < |entries| ==> entries[j].name != name
  {
    k := 0;
    if entries != [] && entries[0].name != name {
      k := FirstEntry(entries[1..], name);
      assert forall j :: 0 < j < |entries| ==> entries[j] == entries[1..][j - 1];
      k := k + 1;
    }
  }

  lemma OfflineFinishedIff(ctx: Context, api: Api, name: string)
    requires Finished(ctx, api, name, true).result.Ok?
    ensures Finished(ctx, api, name, true).result.value <==> CopiedOffline(ctx, api.cluster.dvs, name)
  {
    var entries := ctx.plan.value.ready + ctx.plan.value.inProgress;
    assert Cancellable(ctx.plan) == entries;
    var k := FirstEntry(entries, name);
    var found := FindEntry(entries, name);
    if found.Some? {
      OfflineDoneIff(ctx.namespace, api, found.value.targets);
      OnlyFirst(entries, name, k);
      assert Finished(ctx, api, name, true) == OfflineDone(ctx.namespace, api, entries[k].targets);
    }
  }

  lemma OnlyFirst(entries: seq<PlanVM>, name: string, k: int)
    requires FirstAt(entries, name, k)
    ensures forall i :: FirstAt(entries, name, i) ==> i == k
  {
  }

  /** The progress last scraped for a VM with a VMI, and otherwise what was known. */
  function Progress(c: Cluster, r: Running): string {
    if r.name in c.vmis && r.name in c.progress && c.progress[r.name] != "" then c.progress[r.name] else r.progress
  }

  /** One VM: finished is reported only of a VM that has moved, and still running only of one that has not. */
  lemma WaitOneExactly(ctx: Context, api: Api, r: Running)
    ensures
      var (api', verdict) := WaitOne(ctx, api, r);
      && api'.cluster == api.cluster
      && (verdict.Done? ==> HasMoved(ctx, api.cluster, r.name))
      && (verdict.Waiting? ==> verdict.entry.name == r.name && !HasMoved(ctx, api.cluster, r.name) && verdict.entry.progress == Progress(api.cluster, r))
  {
    WaitOneSteady(ctx, api, r);
    var vmi := CheckVMI(api, r.name);
    if vmi.result.Ok? {
      if vmi.result.value {
        LiveDoneIff(api.cluster.vmims, r.name, ctx.created);
      } else if Finished(ctx, vmi.api, r.name, true).result.Ok? {
        OfflineFinishedIff(ctx, vmi.api, r.name);
      }
    }
  }

  // ----- A wait pass -----

  /** The names, in order, of those that have moved or of those that have not. */
  ghost function Split(ctx: Context, cluster: Cluster, names: seq<string>, moved: bool): seq<string> {
    if names == [] then []
    else if HasMoved(ctx, cluster, names[0]) == moved then [names[0]] + Split(ctx, cluster, names[1..], moved)
    else Split(ctx, cluster, names[1..], moved)
  }

  lemma {:induction false} SplitHas(ctx: Context, cluster: Cluster, names: seq<string>, moved: bool, n: string)
    ensures n in Split(ctx, cluster, names, moved) <==> n in names && HasMoved(ctx, cluster, n) == moved
  {
    if names != [] {
      SplitHas(ctx, cluster, names[1..], moved, n);
    }
  }

  lemma SplitStep(ctx: Context, cluster: Cluster, rest: seq<Running>, moved: bool)
    requires rest != []
    ensures
      var tail := Split(ctx, cluster, RunningNames(rest[1..]), moved);
      Split(ctx, cluster, RunningNames(rest), moved) == if HasMoved(ctx, cluster, rest[0].name) == moved then [rest[0].name] + tail else tail
  {
    assert RunningNames(rest)[1..] == RunningNames(rest[1..]);
  }

  lemma {:induction false} WaitLoopExactly(ctx: Context, t: TaskState, rest: seq<Running>, running: seq<Running>)
    requires WaitLoop(ctx, t, rest, running).ok
    ensures WaitLoop(ctx, t, rest, running).state.completed == t.completed + Split(ctx, t.api.cluster, RunningNames(rest), true)
    ensures RunningNames(WaitLoop(ctx, t, rest, running).state.running) == RunningNames(running) + Split(ctx, t.api.cluster, RunningNames(rest), false)
    decreases rest
  {
    if rest != [] {
      var (api, verdict) := WaitOne(ctx, t.api, rest[0]);
      WaitOneExactly(ctx, t.api, rest[0]);
      SplitStep(ctx, t.api.cluster, rest, true);
      SplitStep(ctx, t.api.cluster, rest, false);
      match verdict {
        case Waiting(entry) =>
          var t1, running1 := t.(api := api), running + [entry];
          assert WaitLoop(ctx, t, rest, running) == WaitLoop(ctx, t1, rest[1..], running1);
          WaitLoopExactly(ctx, t1, rest[1..], running1);
          assert RunningNames(running1) == RunningNames(running) + [rest[0].name];
        case Done =>
          var t1 := t.(api := api, completed := t.completed + [rest[0].name]);
          assert WaitLoop(ctx, t, rest, running) == WaitLoop(ctx, t1, rest[1..], running);
          WaitLoopExactly(ctx, t1, rest[1..], running);
      }
    }
  }

  /** Failing passes too list only VMs that have moved. */
  lemma {:induction false} WaitLoopSound(ctx: Context, t: TaskState, rest: seq<Running>, running: seq<Running>, n: string)
    requires n in WaitLoop(ctx, t, rest, running).state.completed && n !in t.completed
    ensures n in RunningNames(rest) && HasMoved(ctx, t.api.cluster, n)
    decreases rest
  {
    var (api, verdict) := WaitOne(ctx, t.api, rest[0]);
    WaitOneExactly(ctx, t.api, rest[0]);
    assert RunningNames(rest) == [rest[0].name] + RunningNames(rest[1..]);
    match verdict {
      case Waiting(entry) =>
        WaitLoopSound(ctx, t.(api := api), rest[1..], running + [entry], n);
      case Done =>
        if n != rest[0].name {
          WaitLoopSound(ctx, t.(api := api, completed := t.completed + [rest[0].name]), rest[1..], running, n);
        }
    }
  }

  /** A wait pass that gets through moves a VM from Running to Completed if and only if the VM has moved: with a VMI,
      when the first VMIM that counts has completed and not failed; without one, when its entry is there and every
      destination DataVolume exists and is not pending. The order is kept on both lists. */
  lemma WaitPassExactly(ctx: Context, t: TaskState)
    requires t.phase == WaitForLiveMigrationToComplete && RunPhase(ctx, t).ok
    ensures
      var t', names := RunPhase(ctx, t).state, RunningNames(t.running);
      && t'.completed == t.completed + Split(ctx, t.api.cluster, names, true)
      && RunningNames(t'.running) == Split(ctx, t.api.cluster, names, false)
      && (forall n :: n in names ==> (n in RunningNames(t'.running) <==> !HasMoved(ctx, t.api.cluster, n)))
      && (forall n :: n in names && n !in t.completed ==> (n in t'.completed <==> HasMoved(ctx, t.api.cluster, n)))
  {
    var names := RunningNames(t.running);
    WaitLoopExactly(ctx, t, t.running, []);
    assert RunningNames([]) == [];
    forall n {:trigger HasMoved(ctx, t.api.cluster, n)} | n in names
      ensures n in Split(ctx, t.api.cluster, names, true) <==> HasMoved(ctx, t.api.cluster, n)
      ensures n in Split(ctx, t.api.cluster, names, false) <==> !HasMoved(ctx, t.api.cluster, n)
    {
      SplitHas(ctx, t.api.cluster, names, true, n);
      SplitHas(ctx, t.api.cluster, names, false, n);
    }
  }

  // ----- Every run -----

  /** Any reconcile, failing ones included, newly lists as completed only running VMs that have moved. */
  lemma NewlyCompletedHasMoved(s: System, o: Outcome, name: string)
    requires name in Reconcile(s, o).mig.completed && name !in s.mig.completed
    ensures name in RunningNames(s.mig.running) && HasMoved(ContextOf(s), s.cluster, name)
  {
    if Runs(s, o) {
      RunningPass(s, o);
      var ctx, t := ContextOf(s), Entered(s, o);
      RunPhaseShape(ctx, t);
      assert name in Reconciled(s, o).completed;
      WaitLoopSound(ctx, t, t.running, [], name);
    }
  }

  /** In every run, a VM listed as completed was running and had moved at some reconcile that listed it. */
  lemma {:induction false} CompletedHasMoved(states: seq<System>, events: seq<Event>, table: Confinement.Table, i: nat, name: string) returns (j: nat)
    requires IsRun(states, events, table) && i < |states|
    requires name in states[i].mig.completed && name !in states[0].mig.completed
    ensures j < i && events[j].ReconcilePass? && name in RunningNames(states[j].mig.running)
    ensures HasMoved(ContextOf(states[j]), states[j].cluster, name)
  {
    assert Next(states[i - 1], events[i - 1], states[i], table);
    if name in states[i - 1].mig.completed {
      j := CompletedHasMoved(states, events, table, i - 1, name);
    } else {
      j := i - 1;
      NewlyCompletedHasMoved(states[j], events[j].o, name);
    }
  }
}
