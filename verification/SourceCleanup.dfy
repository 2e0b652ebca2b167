/** deleteSource cleanup over whole runs: exactly when a claim it deletes is still in use. */
module SourceCleanup {
  import opened Basics
  import opened Objects
  import opened VolumeRewrite
  import opened Confinement
  import opened ClusterApi
  import opened TaskSpec
  import opened PassEffects
  import opened PatchLog
  import opened MigrationController
  import opened MigrationRun
  import opened ClaimSafety

  // ----- The last pass that patched a VM -----

  predicate PatchedBy(s: System, ev: Event, name: string) {
    ev.ReconcilePass? && Patched(Reconciled(s, ev.o).api.writes, name)
  }

  function LastPatch(states: seq<System>, events: seq<Event>, name: string, i: nat): Option<nat>
    requires i < |states| == |events| + 1
  {
    if i == 0 then None
    else if PatchedBy(states[i - 1], events[i - 1], name) then Some(i - 1)
    else LastPatch(states, events, name, i - 1)
  }

  lemma {:induction false} LastPatchAt(states: seq<System>, events: seq<Event>, name: string, i: nat)
    requires i < |states| == |events| + 1
    ensures
      var last := LastPatch(states, events, name, i);
      last.Some? ==> last.value < i && PatchedBy(states[last.value], events[last.value], name)
  {
    if i > 0 {
      LastPatchAt(states, events, name, i - 1);
    }
  }

  lemma {:induction false} LastPatchIsLast(states: seq<System>, events: seq<Event>, name: string, i: nat, j: nat)
    requires i < |states| == |events| + 1 && j < i && PatchedBy(states[j], events[j], name)
    ensures LastPatch(states, events, name, i).Some? && j <= LastPatch(states, events, name, i).value
  {
    if j < i - 1 {
      LastPatchIsLast(states, events, name, i - 1, j);
    }
  }

  /** The last pass that patched the VM was a cancel pass. */
  predicate PutBack(states: seq<System>, events: seq<Event>, name: string, i: nat)
    requires i < |states| == |events| + 1
  {
    var last := LastPatch(states, events, name, i);
    last.Some? && last.value < |events| && EntersCanceling(states[last.value], events[last.value])
  }

  // ----- Where every VM is -----

  /** A VM put back is on its sources, any other listed VM is off them, and both carry the routes they carried at first. */
  ghost predicate Located(s: System, first: System, table: Table, name: string, back: bool) {
    name in s.cluster.vms ==>
      && name in first.cluster.vms && SameCarried(first.cluster.vms[name], s.cluster.vms[name], RoutesOf(table, name))
      && (if back then Off(true, s.cluster.vms[name], RoutesOf(table, name))
          else name in Listed(s.mig) ==> OffSources(s.cluster.vms[name], RoutesOf(table, name)))
  }

  /** What a pass newly lists it newly recorded as running; a cancel pass lists nothing new. */
  lemma NewlyListed(s: System, o: Outcome, name: string)
    requires Runs(s, o) && name in Listed(Reconcile(s, o).mig) && name !in Listed(s.mig)
    ensures name in SetOf(RunningNames(Reconciled(s, o).running)) - SetOf(RunningNames(s.mig.running))
    ensures Entered(s, o).phase != Canceling
  {
    RunningPass(s, o);
    var t := Entered(s, o);
    RunPhaseShape(ContextOf(s), t);
    if t.phase == Canceling {
      CancelListsNothingNew(ContextOf(s), t);
    }
  }

  lemma CancelListsNothingNew(ctx: Context, t: TaskState)
    requires t.phase == Canceling
    ensures SetOf(RunningNames(RunPhase(ctx, t).state.running)) <= SetOf(RunningNames(t.running)) && RunPhase(ctx, t).state.completed == t.completed
  {
    CancelLoopLists(ctx, t, t.running, [], []);
    var t' := RunPhase(ctx, t).state;
    if RunPhase(ctx, t).ok {
      var none: seq<Running> := [];
      var nobody: seq<string> := [];
      assert RunningNames(none) == nobody;
      assert multiset(RunningNames(none)) + multiset(nobody) == multiset{};
      assert multiset(RunningNames(t'.running)) + multiset(t'.cancelled) == multiset(RunningNames(t.running));
      forall x | x in SetOf(RunningNames(t'.running)) ensures x in SetOf(RunningNames(t.running)) {
        assert x in multiset(RunningNames(t'.running));
        assert x in multiset(RunningNames(t.running));
      }
    }
  }

  /** One pass, one VM: its place after the pass, given its place before and whether the pass patched it. */
  lemma PassLocates(s: System, o: Outcome, first: System, table: Table, name: string, back: bool)
    requires CancelInvariant(s, table) && Located(s, first, table, name, back)
    ensures
      var back' := if PatchedBy(s, ReconcilePass(o), name) then EntersCanceling(s, ReconcilePass(o)) else back;
      Located(Reconcile(s, o), first, table, name, back')
  {
    if Runs(s, o) {
      var ctx, t := ContextOf(s), Entered(s, o);
      RunningPass(s, o);
      RunPhaseTells(ctx, t, table);
      if name in Listed(Reconcile(s, o).mig) && name !in Listed(s.mig) && name in s.cluster.vms {
        NewlyListed(s, o, name);
        RunPhaseVMs(ctx, t, table, {});
        assert KeepsSwapped(t, RunPhase(ctx, t).state, table, {});
      }
      if name in s.cluster.vms {
        CarriedThrough(first.cluster.vms[name], s.cluster.vms[name], Reconcile(s, o).cluster.vms[name], RoutesOf(table, name));
      }
    } else {
      IdlePass(s, o);
    }
  }

  lemma EnvironmentLocates(s: System, s': System, first: System, table: Table, name: string, back: bool)
    requires EnvironmentStep(s, s', table) && Located(s, first, table, name, back)
    ensures Located(s', first, table, name, back)
  {
    if name in s'.cluster.vms {
      var vm, vm', rs := s.cluster.vms[name], s'.cluster.vms[name], RoutesOf(table, name);
      SameSpecTransfer(vm, vm', rs, table);
      assert forall i :: 0 <= i < |rs| ==> (CarriesRoute(vm, rs[i]) <==> CarriesRoute(vm', rs[i]));
      CarriedThrough(first.cluster.vms[name], vm, vm', rs);
    }
  }

  lemma StepLocates(s: System, ev: Event, s': System, first: System, table: Table, name: string, back: bool)
    requires CancelInvariant(s, table) && Located(s, first, table, name, back) && Next(s, ev, s', table)
    ensures Located(s', first, table, name, if PatchedBy(s, ev, name) then EntersCanceling(s, ev) else back)
  {
    if ev.ReconcilePass? {
      PassLocates(s, ev.o, first, table, name, back);
    } else {
      EnvironmentLocates(s, s', first, table, name, back);
    }
  }

  lemma PutBackStep(states: seq<System>, events: seq<Event>, name: string, i: nat)
    requires 0 < i < |states| == |events| + 1
    ensures PutBack(states, events, name, i) ==
      if PatchedBy(states[i - 1], events[i - 1], name) then EntersCanceling(states[i - 1], events[i - 1]) else PutBack(states, events, name, i - 1)
  {
    LastPatchAt(states, events, name, i - 1);
  }

  lemma {:induction false} EveryVMIsLocated(states: seq<System>, events: seq<Event>, table: Table, name: string, i: nat)
    requires IsRun(states, events, table) && i < |states| && SwapInvariant(states[0], table)
    ensures Located(states[i], states[0], table, name, PutBack(states, events, name, i))
  {
    if i > 0 {
      EveryVMIsLocated(states, events, table, name, i - 1);
      CancelInvariantHolds(states, events, table, i - 1);
      PutBackStep(states, events, name, i);
      var s, ev, back := states[i - 1], events[i - 1], PutBack(states, events, name, i - 1);
      assert Next(s, ev, states[i], table);
      assert Located(s, states[0], table, name, back);
      StepLocates(s, ev, states[i], states[0], table, name, back);
    }
  }

  // ----- What it means for a claim -----

  lemma BackNamesItsSource(vm: VM, rs: seq<Route>, table: Table, j: nat)
    requires Confined(vm, rs, table) && GoodRoutes(rs, table) && Off(true, vm, rs) && j < |rs|
    ensures References(vm, rs[j].source) <==> CarriesRoute(vm, rs[j])
  {
    var r := rs[j];
    assert !References(vm, r.destination);
    if k :| 0 <= k < |vm.volumes| && ClaimName(vm.volumes[k]) == r.source {
      var i :| 0 <= i < |rs| && rs[i].volume == vm.volumes[k].name && OnRoute(ClaimName(vm.volumes[k]), rs[i]);
      assert i == j;
    }
    if k :| 0 <= k < |vm.volumes| && vm.volumes[k].name == r.volume && !vm.volumes[k].source.OtherSource? {
      assert ClaimName(vm.volumes[k]) == r.source;
    }
  }

  // ----- Plans that keep their sources -----

  /** Only VMs differ, and nothing was deleted. */
  ghost predicate KeepsDisks(api: Api, api': Api) {
    && api'.cluster.dvs == api.cluster.dvs && api'.cluster.pvcs == api.cluster.pvcs
    && (NoDeletes(api.writes) ==> NoDeletes(api'.writes))
  }

  lemma CancelOneKeepsDisks(ctx: Context, api: Api, name: string)
    ensures KeepsDisks(api, CancelOne(ctx, api, name).0)
  {
    var vmi := CheckVMI(api, name);
    if vmi.result.Ok? && vmi.result.value {
      CancelVMEffect(ctx, CheckOnSource(ctx, vmi.api, name).api, name);
    } else if vmi.result.Ok? {
      CancelVMEffect(ctx, vmi.api, name);
    }
  }

  lemma {:induction false} CancelLoopKeepsDisks(ctx: Context, t: TaskState, rest: seq<Running>, running: seq<Running>, cancelled: seq<string>)
    ensures KeepsDisks(t.api, CancelLoop(ctx, t, rest, running, cancelled).state.api)
    decreases rest
  {
    if rest != [] {
      var name := rest[0].name;
      CancelOneKeepsDisks(ctx, t.api, name);
      var (api, verdict) := CancelOne(ctx, t.api, name);
      match verdict {
        case CancelError =>
        case StillRunning => CancelLoopKeepsDisks(ctx, t.(api := api), rest[1..], running + [rest[0]], cancelled);
        case NowCancelled => CancelLoopKeepsDisks(ctx, t.(api := api), rest[1..], running, cancelled + [name]);
      }
    }
  }

  /** A plan that does not ask for deleteSource keeps its sources: whatever state a migration in cleanup is in and
      whatever calls fail, a reconcile without a plan or with such a plan deletes nothing, and every DataVolume and
      every claim stays as it is. */
  lemma KeepSourceDeletesNothing(s: System, o: Outcome)
    requires s.mig.phase == CleanupMigrationResources && (s.plan.None? || !s.plan.value.deleteSource)
    ensures NoDeletes(Reconciled(s, o).api.writes)
    ensures Reconcile(s, o).cluster.dvs == s.cluster.dvs && Reconcile(s, o).cluster.pvcs == s.cluster.pvcs
  {
    if Runs(s, o) {
      RunningPass(s, o);
      var ctx, t := ContextOf(s), Entered(s, o);
      if t.phase == Canceling {
        CancelLoopKeepsDisks(ctx, t, t.running, [], []);
      }
    } else {
      IdlePass(s, o);
    }
  }

  /** The claim that step k of a source cleanup deletes: whose it is, in the plan and in the table. */
  lemma DeletedSource(s: System, o: Outcome, table: Table, k: nat) returns (name: string, j: nat)
    requires CancelInvariant(s, table) && s.mig.phase == CleanupMigrationResources
    requires
      var ws := Reconciled(s, o).api.writes;
      k < |ws| && (ws[k].DeletedDV? || ws[k].DeletedPVC?)
    ensures !EntersCanceling(s, ReconcilePass(o)) && s.plan.Some? && s.plan.value.deleteSource && DeletedOnce(Reconciled(s, o).api.writes)
    ensures Reconcile(s, o).cluster.vms == s.cluster.vms
    ensures name in Listed(s.mig) && name in table && j < |table[name]| && table[name][j].source == Reconciled(s, o).api.writes[k].key.name
    ensures exists e, c :: e in s.plan.value.completed && e.name == name && e.name in s.mig.completed && c in e.sources && Reconciled(s, o).api.writes[k].key == Key(c.namespace, c.name)
  {
    RunPhaseVMs(ContextOf(s), Entered(s, o), table, {});
    var w := Reconciled(s, o).api.writes[k];
    if s.plan.None? || !s.plan.value.deleteSource {
      KeepSourceDeletesNothing(s, o);
    }
    assert s.plan.Some?;
    var source :| source in SourcesToDelete(s.plan.value.completed, s.mig.completed) && w.key == Key(source.namespace, source.name);
    SourcesToDeleteAt(s.plan.value.completed, s.mig.completed, source);
    var e :| e in s.plan.value.completed && e.name in s.mig.completed && source in e.sources;
    var i :| 0 <= i < |e.sources| && e.sources[i] == source;
    assert EntryMatches(e, table) && Routes(e)[i].source == source.name;
    name, j := e.name, i;
  }

  /** Source cleanup, exactly: in every run, a claim it deletes is the recorded source of a plan-completed VM this
      migration completed, no other VM names it, and that VM names it if and only if it carried the routed volume or
      template from the start and the last pass that patched it was a cancel pass. */
  lemma SourceCleanupInUseIff(states: seq<System>, events: seq<Event>, table: Table, i: nat, k: nat) returns (name: string, j: nat)
    requires IsRun(states, events, table) && SwapInvariant(states[0], table)
    requires i < |events| && events[i].ReconcilePass? && states[i].mig.phase == CleanupMigrationResources
    requires
      var ws := Reconciled(states[i], events[i].o).api.writes;
      k < |ws| && (ws[k].DeletedDV? || ws[k].DeletedPVC?)
    ensures
      var key := Reconciled(states[i], events[i].o).api.writes[k].key;
      && states[i].plan.Some? && states[i].plan.value.deleteSource
      && name in table && j < |table[name]| && table[name][j].source == key.name
      && (exists e, c :: e in states[i].plan.value.completed && e.name == name && e.name in states[i].mig.completed && c in e.sources && key == Key(c.namespace, c.name))
      && (forall n :: n in states[i].cluster.vms && n != name ==> !References(states[i].cluster.vms[n], key.name))
      && (name in states[i].cluster.vms ==>
            && name in states[0].cluster.vms
            && (References(states[i].cluster.vms[name], key.name) <==>
                  PutBack(states, events, name, i) && CarriesRoute(states[0].cluster.vms[name], table[name][j])))
    ensures states[i + 1].cluster.vms == states[i].cluster.vms && DeletedOnce(Reconciled(states[i], events[i].o).api.writes)
  {
    var s, o := states[i], events[i].o;
    CancelInvariantHolds(states, events, table, i);
    assert Next(s, events[i], states[i + 1], table);
    name, j := DeletedSource(s, o, table, k);
    EveryVMIsLocated(states, events, table, name, i);
    var claim := table[name][j].source;
    forall n | n in s.cluster.vms && n != name ensures !References(s.cluster.vms[n], claim) {
      ClaimOwner(s.cluster.vms, table, n, name, j);
    }
    if name in s.cluster.vms && PutBack(states, events, name, i) {
      TableRoutesGood(table, name);
      BackNamesItsSource(s.cluster.vms[name], table[name], table, j);
    }
  }

  /** deleteSource safety: in every run, unless a cancel pass came earlier and the plan holds its own deletion now,
      each claim deleted by source cleanup is the recorded source of a plan-completed entry of a VM this migration
      completed, is deleted once in the pass, and is named by no VM. */
  lemma SourceCleanupIsSafe(states: seq<System>, events: seq<Event>, table: Table, i: nat, k: nat)
    requires IsRun(states, events, table) && SwapInvariant(states[0], table)
    requires i < |events| && events[i].ReconcilePass? && NotHeldAfterCancel(states, events, i)
    requires states[i].mig.phase == CleanupMigrationResources
    requires
      var ws := Reconciled(states[i], events[i].o).api.writes;
      k < |ws| && (ws[k].DeletedDV? || ws[k].DeletedPVC?)
    ensures
      var key := Reconciled(states[i], events[i].o).api.writes[k].key;
      && states[i].plan.Some? && states[i].plan.value.deleteSource
      && (exists e, s :: e in states[i].plan.value.completed && e.name in states[i].mig.completed && s in e.sources && key == Key(s.namespace, s.name))
      && NamedByNoVM(states[i].cluster, key.name) && NamedByNoVM(states[i + 1].cluster, key.name)
    ensures DeletedOnce(Reconciled(states[i], events[i].o).api.writes)
  {
    var name, j := SourceCleanupInUseIff(states, events, table, i, k);
    CancelInvariantHolds(states, events, table, i);
    var _, _ := DeletedSource(states[i], events[i].o, table, k);
    LastPatchAt(states, events, name, i);
    if PutBack(states, events, name, i) {
      NoCleanupAfterCancel(states, events, table, LastPatch(states, events, name, i).value, i);
    }
  }
}
