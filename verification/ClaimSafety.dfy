/** No claim that a VM still names is ever deleted: cancel cleanup and deleteSource cleanup, over whole runs. */
module ClaimSafety {
  import opened Basics
  import opened Objects
  import opened VolumeRewrite
  import opened Confinement
  import opened ClusterApi
  import opened TaskSpec
  import opened PassEffects
  import opened MigrationController
  import opened MigrationRun

  ghost predicate NamedByNoVM(cluster: Cluster, claim: string) {
    forall n :: n in cluster.vms ==> !References(cluster.vms[n], claim)
  }

  /** What a pass deletes depends on the phase it runs. */
  ghost predicate DeletionsByPhase(ctx: Context, t: TaskState, t': TaskState, table: Table) {
    if t.phase == CleanupCancelledMigrations then
      t'.api.cluster.vms == t.api.cluster.vms && DeletesOnlyTargetsOf(t'.api.writes, ctx.namespace, SetOf(t.cancelled), table)
    else if t.phase == CleanupMigrationResources then
      && t'.api.cluster.vms == t.api.cluster.vms && DeletedOnce(t'.api.writes)
      && DeletesOnlySources(t'.api.writes, if ctx.plan.Some? then SourcesToDelete(ctx.plan.value.completed, t.completed) else [])
    else NoDeletes(t'.api.writes)
  }

  /** VMs keep to their own claims, deletions follow the phase, and cancel cleanup is entered only with VMs off their targets. */
  ghost predicate KeepsClaims(ctx: Context, t: TaskState, t': TaskState, table: Table) {
    && ConfinedVMs(t'.api.cluster.vms, table)
    && DeletionsByPhase(ctx, t, t', table)
    && (t'.phase == CleanupCancelledMigrations ==> AllOffTargets(SetOf(t'.cancelled), t'.api.cluster.vms, table))
  }

  /** Outside Canceling, VMs off their sources stay so, and so is every VM newly recorded as running. */
  ghost predicate KeepsSwapped(t: TaskState, t': TaskState, table: Table, names: set<string>) {
    AllOffSources(names + (SetOf(RunningNames(t'.running)) - SetOf(RunningNames(t.running))), t'.api.cluster.vms, table)
  }

  lemma CleanupCancelledVMs(ctx: Context, t: TaskState, table: Table, names: set<string>)
    requires WellFormed(table) && PlanMatches(ctx.plan, table) && ConfinedVMs(t.api.cluster.vms, table) && t.api.writes == []
    requires t.phase == CleanupCancelledMigrations && AllOffTargets(SetOf(t.cancelled), t.api.cluster.vms, table)
    requires AllOffSources(names, t.api.cluster.vms, table)
    ensures KeepsClaims(ctx, t, CleanupCancelled(ctx, t).state, table) && KeepsSwapped(t, CleanupCancelled(ctx, t).state, table, names)
  {
    DeleteCancelledEffect(ctx, Leftovers(t.api).api, t.cancelled, SetOf(t.cancelled), table);
  }

  lemma WaitVMs(ctx: Context, t: TaskState, table: Table, names: set<string>)
    requires ConfinedVMs(t.api.cluster.vms, table) && t.api.writes == [] && t.phase == WaitForLiveMigrationToComplete
    requires AllOffSources(names, t.api.cluster.vms, table)
    ensures KeepsClaims(ctx, t, WaitLoop(ctx, t, t.running, []).state, table) && KeepsSwapped(t, WaitLoop(ctx, t, t.running, []).state, table, names)
  {
    WaitLoopLists(ctx, t, t.running, []);
    assert RunningNames([]) == [] && SetOf<string>([]) == {};
    WaitLoopShrinks(ctx, t, t.running, []);
  }

  lemma BeginVMs(ctx: Context, t: TaskState, table: Table, names: set<string>)
    requires WellFormed(table) && PlanMatches(ctx.plan, table) && ConfinedVMs(t.api.cluster.vms, table) && t.api.writes == []
    requires t.phase == BeginLiveMigration && AllOffSources(names, t.api.cluster.vms, table)
    ensures KeepsClaims(ctx, t, Begin(ctx, t).state, table) && KeepsSwapped(t, Begin(ctx, t).state, table, names)
  {
    if ctx.plan.Some? {
      BeginLoopLists(ctx, t, Cancellable(ctx.plan));
      CancellableMatches(ctx.plan, table, "");
      BeginLoopInvariant(ctx, t, Cancellable(ctx.plan), table, names);
    }
  }

  lemma CancelingVMs(ctx: Context, t: TaskState, table: Table)
    requires WellFormed(table) && PlanMatches(ctx.plan, table) && ConfinedVMs(t.api.cluster.vms, table) && t.api.writes == []
    requires t.phase == Canceling
    ensures KeepsClaims(ctx, t, CancelLoop(ctx, t, t.running, [], []).state, table)
  {
    CancelLoopInvariant(ctx, t, t.running, [], [], table);
  }

  lemma CleanupKeeps(ctx: Context, t: TaskState, table: Table, names: set<string>)
    requires ConfinedVMs(t.api.cluster.vms, table) && t.api.writes == []
    requires t.phase == CleanupMigrationResources && AllOffSources(names, t.api.cluster.vms, table)
    ensures KeepsClaims(ctx, t, Cleanup(ctx, t).state, table) && KeepsSwapped(t, Cleanup(ctx, t).state, table, names)
  {
    CleanupVMs(ctx, t);
  }

  predicate Quiet(p: Phase) {
    p !in {BeginLiveMigration, WaitForLiveMigrationToComplete, CleanupMigrationResources, Canceling, CleanupCancelledMigrations}
  }

  /** The other phases leave the cluster and the running list alone. */
  lemma QuietPhase(ctx: Context, t: TaskState)
    requires Quiet(t.phase) && t.api.writes == []
    ensures
      var t' := RunPhase(ctx, t).state;
      t'.api.cluster == t.api.cluster && t'.running == t.running && NoDeletes(t'.api.writes) && t'.phase != CleanupCancelledMigrations
  {
  }

  lemma QuietVMs(ctx: Context, t: TaskState, t': TaskState, table: Table, names: set<string>)
    requires ConfinedVMs(t.api.cluster.vms, table) && AllOffSources(names, t.api.cluster.vms, table) && Quiet(t.phase)
    requires t'.api.cluster == t.api.cluster && t'.running == t.running && NoDeletes(t'.api.writes) && t'.phase != CleanupCancelledMigrations
    ensures KeepsClaims(ctx, t, t', table) && KeepsSwapped(t, t', table, names)
  {
    assert names + (SetOf(RunningNames(t'.running)) - SetOf(RunningNames(t.running))) == names;
  }

  lemma RunPhaseVMs(ctx: Context, t: TaskState, table: Table, names: set<string>)
    requires WellFormed(table) && PlanMatches(ctx.plan, table) && ConfinedVMs(t.api.cluster.vms, table) && t.api.writes == []
    requires t.phase == CleanupCancelledMigrations ==> AllOffTargets(SetOf(t.cancelled), t.api.cluster.vms, table)
    requires AllOffSources(names, t.api.cluster.vms, table)
    ensures KeepsClaims(ctx, t, RunPhase(ctx, t).state, table)
    ensures t.phase != Canceling ==> KeepsSwapped(t, RunPhase(ctx, t).state, table, names)
  {
    match t.phase {
      case BeginLiveMigration => BeginVMs(ctx, t, table, names);
      case WaitForLiveMigrationToComplete => WaitVMs(ctx, t, table, names);
      case Canceling => CancelingVMs(ctx, t, table);
      case CleanupMigrationResources => CleanupKeeps(ctx, t, table, names);
      case CleanupCancelledMigrations => CleanupCancelledVMs(ctx, t, table, names);
      case _ =>
        QuietPhase(ctx, t);
        QuietVMs(ctx, t, RunPhase(ctx, t).state, table, names);
    }
  }

  lemma CleanupVMs(ctx: Context, t: TaskState)
    requires t.api.writes == []
    ensures
      var t' := Cleanup(ctx, t).state;
      && t'.api.cluster.vms == t.api.cluster.vms && DeletedOnce(t'.api.writes)
      && DeletesOnlySources(t'.api.writes, if ctx.plan.Some? then SourcesToDelete(ctx.plan.value.completed, t.completed) else [])
  {
    var r := Leftovers(t.api);
    if ctx.plan.Some? {
      var sources := SourcesToDelete(ctx.plan.value.completed, t.completed);
      DeleteSourcesEffect(r.api, sources, {}, sources);
    }
  }

  lemma {:induction false} WaitLoopShrinks(ctx: Context, t: TaskState, rest: seq<Running>, running: seq<Running>)
    ensures
      var p := WaitLoop(ctx, t, rest, running);
      p.ok ==> SetOf(RunningNames(p.state.running)) <= SetOf(RunningNames(running)) + SetOf(RunningNames(rest))
    decreases rest
  {
    if rest != [] {
      var (api, verdict) := WaitOne(ctx, t.api, rest[0]);
      WaitOneSteady(ctx, t.api, rest[0]);
      assert RunningNames(rest) == [rest[0].name] + RunningNames(rest[1..]);
      match verdict {
        case WaitError =>
        case Waiting(entry) =>
          RunningNamesAppend(running, entry);
          WaitLoopShrinks(ctx, t.(api := api), rest[1..], running + [entry]);
        case Done =>
          WaitLoopShrinks(ctx, t.(api := api, completed := t.completed + [rest[0].name]), rest[1..], running);
      }
    }
  }

  // ----- Cancel cleanup -----

  /** VMs name only their own planned claims, and once cleanup of a cancelled migration may start, every VM it
      lists as cancelled is off all its destinations. */
  ghost predicate CancelInvariant(s: System, table: Table) {
    && WellFormed(table) && PlanMatches(s.plan, table) && ConfinedVMs(s.cluster.vms, table)
    && (s.mig.phase == CleanupCancelledMigrations ==> AllOffTargets(SetOf(s.mig.cancelled), s.cluster.vms, table))
  }

  lemma EnvironmentKeepsVMs(s: System, s': System, table: Table, names: set<string>)
    requires EnvironmentStep(s, s', table) && ConfinedVMs(s.cluster.vms, table)
    ensures ConfinedVMs(s'.cluster.vms, table)
    ensures AllOffTargets(names, s.cluster.vms, table) ==> AllOffTargets(names, s'.cluster.vms, table)
    ensures AllOffSources(names, s.cluster.vms, table) ==> AllOffSources(names, s'.cluster.vms, table)
  {
    forall n | n in s'.cluster.vms
      ensures Confined(s'.cluster.vms[n], RoutesOf(table, n), table)
      ensures OffTargets(s.cluster.vms[n], RoutesOf(table, n)) ==> OffTargets(s'.cluster.vms[n], RoutesOf(table, n))
      ensures OffSources(s.cluster.vms[n], RoutesOf(table, n)) ==> OffSources(s'.cluster.vms[n], RoutesOf(table, n))
    {
      SameSpecTransfer(s.cluster.vms[n], s'.cluster.vms[n], RoutesOf(table, n), table);
    }
  }

  function Entered(s: System, o: Outcome): TaskState {
    Loaded(s, o.faults).(requeue := NoReQ, phase := EntryPhase(ContextOf(s), s.mig.phase))
  }

  /** A pass either runs the task, or writes nothing and lists nothing new. */
  lemma IdlePass(s: System, o: Outcome)
    requires !Runs(s, o)
    ensures Reconcile(s, o).cluster == s.cluster && Reconciled(s, o).api.writes == [] && Listed(Reconcile(s, o).mig) == Listed(s.mig)
  {
  }

  lemma RunningPass(s: System, o: Outcome)
    requires Runs(s, o)
    ensures Reconciled(s, o) == RunPhase(ContextOf(s), Entered(s, o)).state
    ensures Listed(Reconcile(s, o).mig) in {Listed(s.mig), Listed(Unloaded(s.mig, Reconciled(s, o)))}
    ensures Reconcile(s, o).cluster == Reconciled(s, o).api.cluster
  {
  }

  lemma ReconcileKeepsCancelInvariant(s: System, o: Outcome, table: Table)
    requires CancelInvariant(s, table)
    ensures CancelInvariant(Reconcile(s, o), table)
  {
    RunPhaseVMs(ContextOf(s), Entered(s, o), table, {});
  }

  lemma {:induction false} CancelInvariantHolds(states: seq<System>, events: seq<Event>, table: Table, i: nat)
    requires IsRun(states, events, table) && i < |states| && CancelInvariant(states[0], table)
    ensures CancelInvariant(states[i], table)
  {
    if i > 0 {
      CancelInvariantHolds(states, events, table, i - 1);
      assert Next(states[i - 1], events[i - 1], states[i], table);
      if events[i - 1].ReconcilePass? {
        ReconcileKeepsCancelInvariant(states[i - 1], events[i - 1].o, table);
      } else {
        EnvironmentKeepsVMs(states[i - 1], states[i], table, SetOf(states[i - 1].mig.cancelled));
      }
    }
  }

  /** Whole-run cancel safety: in every run, whatever pass deletes a DataVolume while cleaning up a cancelled
      migration, no VM's volumes or templates name it, before or after the pass. */
  lemma CancelCleanupIsSafe(states: seq<System>, events: seq<Event>, table: Table, i: nat, k: nat)
    requires IsRun(states, events, table) && CancelInvariant(states[0], table)
    requires i < |events| && events[i].ReconcilePass? && states[i].mig.phase == CleanupCancelledMigrations
    requires k < |Reconciled(states[i], events[i].o).api.writes| && Reconciled(states[i], events[i].o).api.writes[k].DeletedDV?
    ensures
      var claim := Reconciled(states[i], events[i].o).api.writes[k].key.name;
      NamedByNoVM(states[i].cluster, claim) && NamedByNoVM(states[i + 1].cluster, claim)
  {
    var s, o := states[i], events[i].o;
    CancelInvariantHolds(states, events, table, i);
    assert Next(s, events[i], states[i + 1], table);
    RunPhaseVMs(ContextOf(s), Entered(s, o), table, {});
    var w := Reconciled(s, o).api.writes[k];
    var c, j :| c in SetOf(s.mig.cancelled) && c in table && 0 <= j < |table[c]| && w.key.name == table[c][j].destination;
    Unreferenced(s.cluster.vms, table, c, j, w.key.name);
  }

  /** In every run, a cancel pass that gets through lists a VM as cancelled only when it is off all its destinations and,
      if it has a VMI, when none of its VMIMs is active at that moment. */
  lemma CancelPassRecordsSafely(states: seq<System>, events: seq<Event>, table: Table, i: nat)
    requires IsRun(states, events, table) && CancelInvariant(states[0], table)
    requires i < |events| && EntersCanceling(states[i], events[i])
    ensures
      var t' := Reconciled(states[i], events[i].o);
      RunTask(ContextOf(states[i]), Loaded(states[i], events[i].o.faults)).ok ==> SafelyCancelled(t'.cancelled, t'.api.cluster, states[i].mig.created, table)
  {
    CancelInvariantHolds(states, events, table, i);
    var ctx, t := ContextOf(states[i]), Entered(states[i], events[i].o);
    assert RunTask(ctx, Loaded(states[i], events[i].o.faults)) == RunPhase(ctx, t);
    if RunPhase(ctx, t).ok {
      CancelingRecordsSafely(ctx, t, table);
    }
  }

  lemma CancelingRecordsSafely(ctx: Context, t: TaskState, table: Table)
    requires WellFormed(table) && PlanMatches(ctx.plan, table) && ConfinedVMs(t.api.cluster.vms, table) && t.api.writes == []
    requires t.phase == Canceling && RunPhase(ctx, t).ok
    ensures SafelyCancelled(RunPhase(ctx, t).state.cancelled, RunPhase(ctx, t).state.api.cluster, ctx.created, table)
  {
    CancelLoopInvariant(ctx, t, t.running, [], [], table);
  }

  /** No other phase of a migration deletes destinations: outside the two cleanup phases nothing is deleted at all. */
  lemma OnlyCleanupDeletes(states: seq<System>, events: seq<Event>, table: Table, i: nat)
    requires IsRun(states, events, table) && CancelInvariant(states[0], table)
    requires i < |events| && events[i].ReconcilePass? && states[i].mig.phase !in {CleanupCancelledMigrations, CleanupMigrationResources}
    ensures NoDeletes(Reconciled(states[i], events[i].o).api.writes)
  {
    CancelInvariantHolds(states, events, table, i);
    RunPhaseVMs(ContextOf(states[i]), Entered(states[i], events[i].o), table, {});
  }

  // ----- deleteSource cleanup -----

  /** The pass runs the cancel handler: it may put VMs back on their sources. */
  predicate EntersCanceling(s: System, ev: Event) {
    ev.ReconcilePass? && Runs(s, ev.o) && EntryPhase(ContextOf(s), s.mig.phase) == Canceling
  }

  /** A cancel pass whose writes go through stores what it computed. */
  lemma StoredCancelPass(s: System, o: Outcome)
    requires EntersCanceling(s, ReconcilePass(o)) && o.metaOk && o.statusOk
    ensures
      var t := Entered(s, o);
      var t' := CancelLoop(ContextOf(s), t, t.running, [], []).state;
      Reconcile(s, o) == System(Unloaded(s.mig, t'), s.plan, t'.api.cluster)
  {
  }

  ghost predicate SwapInvariant(s: System, table: Table) {
    CancelInvariant(s, table) && AllOffSources(Listed(s.mig), s.cluster.vms, table)
  }

  lemma DeletionMarkStays(states: seq<System>, events: seq<Event>, table: Table, j: nat, i: nat)
    requires IsRun(states, events, table) && j <= i < |states| && states[j].mig.deleting
    ensures states[i].mig.deleting
    decreases i
  {
    if j < i {
      DeletionMarkStays(states, events, table, j, i - 1);
      assert Next(states[i - 1], events[i - 1], states[i], table);
    }
  }

  /** Source cleanup never runs after a cancel pass, unless the plan is holding its own deletion by then: the deletion
      mark stays, so the pass would cancel instead. */
  lemma NoCleanupAfterCancel(states: seq<System>, events: seq<Event>, table: Table, j: nat, i: nat)
    requires IsRun(states, events, table) && j <= i < |events| && EntersCanceling(states[j], events[j])
    requires states[i].mig.phase == CleanupMigrationResources && !PlanHoldsDeletion(states[i].plan)
    ensures events[i].ReconcilePass? ==> EntersCanceling(states[i], events[i])
  {
    PhaseProgress(states, events, table, j, i);
    DeletionMarkStays(states, events, table, j, i);
  }

  /** A run in which the plan does not hold its own deletion now if any earlier pass has run the cancel handler. */
  ghost predicate NotHeldAfterCancel(states: seq<System>, events: seq<Event>, i: nat)
    requires i < |events| < |states|
  {
    forall j :: 0 <= j < i && EntersCanceling(states[j], events[j]) ==> !PlanHoldsDeletion(states[i].plan)
  }
}
