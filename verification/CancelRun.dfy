/** Cancelling converges in whole runs: what may happen between its two passes is up to the environment. */
module CancelRun {
  import opened Basics
  import opened Objects
  import opened VolumeRewrite
  import opened Confinement
  import opened ClusterApi
  import opened TaskSpec
  import opened PassEffects
  import opened MigrationController
  import opened MigrationRun
  import opened ClaimSafety
  import opened CancelConvergence

  /** Nothing holds a cancel pass up: every running VM exists with its entry and its disks, and no VMIM is active. */
  ghost predicate Obliging(s: System, table: Table) {
    CanConverge(ContextOf(s), Api(s.cluster, [], []), SetOf(RunningNames(s.mig.running)), table)
  }

  /** A pass in which no call and no write fails. */
  predicate Smooth(ev: Event) {
    ev.ReconcilePass? && ev.o.faults == [] && ev.o.metaOk && ev.o.statusOk
  }

  /** Being on the source volumes depends on the recorded routes only. */
  lemma OnSourceByRoutes(vm: VM, vm': VM, entries: seq<PlanVM>, entries': seq<PlanVM>, name: string)
    requires SameSpec(vm, vm') && FindEntry(entries, name).Some? && FindEntry(entries', name).Some?
    requires Aligned(FindEntry(entries, name).value) && Aligned(FindEntry(entries', name).value)
    requires Routes(FindEntry(entries, name).value) == Routes(FindEntry(entries', name).value)
    requires OnSourceVolumes(vm, entries, name)
    ensures OnSourceVolumes(vm', entries', name)
  {
    var e, e' := FindEntry(entries, name).value, FindEntry(entries', name).value;
    assert |e.sources| == |Routes(e)| == |e'.sources|;
    forall i | 0 <= i < |e'.sources|
      ensures SourceMatched(vm'.volumes, e'.sources[i])
      ensures !References(vm', e'.targets[i].destination.value)
    {
      assert Routes(e)[i] == Routes(e')[i];
      SameSourceMatched(vm.volumes, e.sources[i], e'.sources[i]);
      assert References(vm', e'.targets[i].destination.value) <==> References(vm, e.targets[i].destination.value);
    }
  }

  lemma {:induction false} SameSourceMatched(volumes: seq<Volume>, s: SourcePVC, s': SourcePVC)
    requires s.volumeName == s'.volumeName && s.name == s'.name
    ensures SourceMatched(volumes, s) == SourceMatched(volumes, s')
  {
    if volumes != [] {
      SameSourceMatched(volumes[1..], s, s');
    }
  }

  /** A smooth cancel pass leaves the VMs still running on their sources. */
  lemma FirstSmoothPass(s: System, o: Outcome, table: Table)
    requires EntersCanceling(s, ReconcilePass(o)) && Smooth(ReconcilePass(o)) && Obliging(s, table)
    ensures
      var s' := Reconcile(s, o);
      && AllOnSource(ContextOf(s), Api(s'.cluster, [], []), SetOf(RunningNames(s'.mig.running)))
      && s'.mig.phase == (if s'.mig.running == [] then CleanupCancelledMigrations else Canceling)
      && s'.plan == s.plan && s'.mig.deleting == s.mig.deleting
  {
    StoredCancelPass(s, o);
    var ctx, t := ContextOf(s), Entered(s, o);
    var names := SetOf(RunningNames(s.mig.running));
    assert RunningNames([]) == [] && SetOf<string>([]) == {};
    CancelLoopConverges(ctx, t, t.running, [], [], names, {}, table);
    CancelLoopLists(ctx, t, t.running, [], []);
  }

  lemma SecondSmoothPass(s: System, o: Outcome, table: Table)
    requires EntersCanceling(s, ReconcilePass(o)) && Smooth(ReconcilePass(o)) && Obliging(s, table)
    requires AllOnSource(ContextOf(s), Api(s.cluster, [], []), SetOf(RunningNames(s.mig.running)))
    ensures Reconcile(s, o).mig.phase == CleanupCancelledMigrations && Reconcile(s, o).mig.running == []
  {
    StoredCancelPass(s, o);
    var names := SetOf(RunningNames(s.mig.running));
    SecondPass(ContextOf(s), Entered(s, o), names, names, table);
  }

  /** What the environment keeps between the two passes. */
  lemma {:induction false} EnvironmentKeepsOnSource(states: seq<System>, events: seq<Event>, table: Table, i: nat, j: nat)
    requires IsRun(states, events, table) && i <= j < |states| && forall k :: i <= k < j ==> events[k].Environment?
    ensures states[j].mig.phase == states[i].mig.phase && states[j].mig.running == states[i].mig.running
    ensures states[i].mig.deleting ==> states[j].mig.deleting
    ensures forall n :: n in states[j].cluster.vms ==> n in states[i].cluster.vms && SameSpec(states[i].cluster.vms[n], states[j].cluster.vms[n])
    decreases j
  {
    if i < j {
      EnvironmentKeepsOnSource(states, events, table, i, j - 1);
      assert Next(states[j - 1], events[j - 1], states[j], table);
    }
  }

  lemma StillOnSource(before: System, s: System, s': System, table: Table)
    requires s.plan == before.plan && s'.mig.running == s.mig.running && PlanMatches(before.plan, table) && Obliging(s', table)
    requires forall n :: n in SetOf(RunningNames(s.mig.running)) ==> FindEntry(Cancellable(before.plan), n).Some?
    requires AllOnSource(ContextOf(before), Api(s.cluster, [], []), SetOf(RunningNames(s.mig.running)))
    requires forall n :: n in s'.cluster.vms ==> n in s.cluster.vms && SameSpec(s.cluster.vms[n], s'.cluster.vms[n])
    ensures AllOnSource(ContextOf(s'), Api(s'.cluster, [], []), SetOf(RunningNames(s'.mig.running)))
  {
    forall n | n in SetOf(RunningNames(s'.mig.running))
      ensures n in s'.cluster.vms && OnSourceVolumes(s'.cluster.vms[n], Cancellable(s'.plan), n)
    {
      assert Cancelable(s'.plan, s'.cluster.vms, n, table);
      CancellableMatches(before.plan, table, n);
      CancellableMatches(s'.plan, table, n);
      OnSourceByRoutes(s.cluster.vms[n], s'.cluster.vms[n], Cancellable(before.plan), Cancellable(s'.plan), n);
    }
  }

  /** Canceling converges in every run: two smooth cancel passes, with anything the environment may do in between (VMIs,
      VMIMs, disks, plan lists), empty any running list and reach CleanupCancelledMigrations, if nothing holds up
      either of them. */
  lemma CancelingConvergesInRuns(states: seq<System>, events: seq<Event>, table: Table, i: nat, j: nat)
    requires IsRun(states, events, table) && i < j < |events| && forall k :: i < k < j ==> events[k].Environment?
    requires EntersCanceling(states[i], events[i]) && Smooth(events[i]) && Smooth(events[j]) && states[i].mig.deleting
    requires Obliging(states[i], table) && Obliging(states[j], table)
    ensures states[j + 1].mig.running == []
    ensures states[i + 1].mig.phase == CleanupCancelledMigrations || states[j + 1].mig.phase == CleanupCancelledMigrations
  {
    var s, s1, s2 := states[i], states[i + 1], states[j];
    assert Next(s, events[i], s1, table) && Next(s2, events[j], states[j + 1], table);
    FirstSmoothPass(s, events[i].o, table);
    EnvironmentKeepsOnSource(states, events, table, i + 1, j);
    if s1.mig.phase == Canceling {
      RunningHadEntries(s, events[i].o, table);
      StillOnSource(s, s1, s2, table);
      SecondSmoothPass(s2, events[j].o, table);
    } else {
      RunPhaseShape(ContextOf(s2), Entered(s2, events[j].o));
    }
  }

  /** A cancel pass leaves nobody running who was not. */
  lemma RunningHadEntries(s: System, o: Outcome, table: Table)
    requires EntersCanceling(s, ReconcilePass(o)) && Smooth(ReconcilePass(o)) && Obliging(s, table)
    ensures forall n :: n in SetOf(RunningNames(Reconcile(s, o).mig.running)) ==> FindEntry(Cancellable(s.plan), n).Some?
  {
    StoredCancelPass(s, o);
    var t, names := Entered(s, o), SetOf(RunningNames(s.mig.running));
    assert RunningNames([]) == [] && SetOf<string>([]) == {};
    CancelLoopConverges(ContextOf(s), t, t.running, [], [], names, {}, table);
  }
}
