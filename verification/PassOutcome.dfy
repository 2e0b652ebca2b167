/** When a reconcile runs which handler, when a pass moves the migration on, and what is stored. */
module PassOutcome {
  import opened Basics
  import opened Objects
  import Confinement
  import opened ClusterApi
  import opened TaskSpec
  import opened PassEffects
  import opened MigrationController
  import opened MigrationRun
  import opened ClaimSafety
  import opened CleanupCompleteness
  import opened WaitOutcome

  // ----- Which handler a reconcile runs -----

  /** The plan is marked for deletion and its finalizer is still there. */
  predicate PlanIsHeld(plan: Option<Plan>) {
    plan.Some? && plan.value.deleting && "virtualmachinestoragemigrationplan.kubevirt.io/finalizer" in plan.value.finalizers
  }

  /** A blocked migration that is not being deleted, one without a plan, and a completed one are left alone, cluster and
      all, whatever else happens. */
  lemma LeftAlone(s: System, o: Outcome)
    requires !s.mig.deleting && (o.blocked || s.plan.None? || s.mig.phase == Completed)
    ensures Reconcile(s, o) == s
  {
  }

  /** A finished migration that is being deleted only loses its finalizer. */
  lemma FinishedIsReleased(s: System, o: Outcome)
    requires s.mig.deleting && s.mig.phase in {Completed, Canceled}
    ensures Reconcile(s, o) == s.(mig := s.mig.(finalizers := if o.metaOk then RemoveFinalizer(s.mig.finalizers, MIGRATION_FINALIZER) else s.mig.finalizers))
  {
  }

  /** Any other reconcile runs the handler of the phase it finds (Started, if there is none yet), except that a
      migration being deleted, before its cancel cleanup, runs the cancel handler unless its plan is held. */
  lemma RunsHandlerOf(s: System, o: Outcome)
    requires s.mig.phase != Completed && (s.mig.deleting ==> s.mig.phase != Canceled) && (s.mig.deleting || (!o.blocked && s.plan.Some?))
    ensures
      var cancels := s.mig.phase == Canceling || (s.mig.deleting && !PlanIsHeld(s.plan) && s.mig.phase != CleanupCancelledMigrations);
      && Entered(s, o).phase == (if cancels then Canceling else if s.mig.phase == NoPhase then Started else s.mig.phase)
      && (EntersCanceling(s, ReconcilePass(o)) <==> cancels)
      && Reconciled(s, o) == RunPhase(ContextOf(s), Entered(s, o)).state
  {
  }

  // ----- What is stored -----

  /** The two writes, exactly: the finalizers change with the first one, everything else only with both; no other part
      of the migration changes, and the plan never does. */
  lemma StoredExactly(s: System, o: Outcome)
    ensures
      var t, m, m' := Reconciled(s, o), s.mig, Reconcile(s, o).mig;
      && m'.finalizers == (if o.metaOk then t.finalizers else m.finalizers)
      && (m'.phase, m'.running, m'.completed, m'.cancelled) ==
           (if o.metaOk && o.statusOk then (t.phase, t.running, t.completed, t.cancelled) else (m.phase, m.running, m.completed, m.cancelled))
      && (m'.namespace, m'.created, m'.deleting) == (m.namespace, m.created, m.deleting)
      && Reconcile(s, o).plan == s.plan && Reconcile(s, o).cluster == t.api.cluster
  {
  }

  // ----- When a pass moves on -----

  /** No call of the pass fails from here on. */
  predicate Faultless(api: Api) {
    forall k :: 0 <= k < |api.faults| ==> !api.faults[k]
  }

  /** The finalizer is put on before anything else. */
  lemma StartedMovesOn(ctx: Context, t: TaskState)
    requires t.phase == Started
    ensures
      var p := RunPhase(ctx, t);
      && p.ok && p.state.phase == RefreshStorageMigrationPlan && MIGRATION_FINALIZER in p.state.finalizers
      && p.state == t.(phase := p.state.phase, finalizers := p.state.finalizers)
  {
  }

  /** The plan's start stamp is written exactly when the pass moves on, which takes a plan and two calls that work. */
  lemma RefreshMovesOn(ctx: Context, t: TaskState)
    requires t.phase == RefreshStorageMigrationPlan
    ensures
      var p := RunPhase(ctx, t);
      && (p.ok <==> ctx.plan.Some? && (forall k :: 0 <= k < |t.api.faults| && k < 2 ==> !t.api.faults[k]))
      && p.state.phase == (if p.ok then WaitForStorageMigrationPlanRefreshCompletion else RefreshStorageMigrationPlan)
      && p.state.api.writes == (if p.ok then t.api.writes + [StampedPlan] else t.api.writes) && p.state.api.cluster == t.api.cluster
  {
    if |t.api.faults| > 1 {
      assert t.api.Called().faults[0] == t.api.faults[1];
    }
  }

  /** The wait for the refresh is over exactly when both stamps can be read and the end is strictly after the start. */
  lemma WaitRefreshMovesOn(ctx: Context, t: TaskState)
    requires t.phase == WaitForStorageMigrationPlanRefreshCompletion
    ensures
      var p := RunPhase(ctx, t);
      && (p.state.phase == BeginLiveMigration <==>
            && !t.api.Fails() && ctx.plan.Some?
            && exists s, e :: ctx.plan.value.refreshStart == Some(At(s)) && ctx.plan.value.refreshEnd == Some(At(e)) && s < e)
      && (p.state.phase != BeginLiveMigration ==> p.state.phase == t.phase && (p.ok ==> p.state.requeue == PollReQ))
      && p.state.api.cluster == t.api.cluster && p.state.api.writes == t.api.writes
  {
    if ctx.plan.Some? {
      var s, e := ctx.plan.value.refreshStart, ctx.plan.value.refreshEnd;
      if s.Some? && s.value.At? && e.Some? && e.value.At? {
        assert s == Some(At(s.value.time)) && e == Some(At(e.value.time));
      }
    }
  }

  /** The wait for the VMs is over exactly when the pass gets through and every running VM has moved. */
  lemma WaitMovesOn(ctx: Context, t: TaskState)
    requires t.phase == WaitForLiveMigrationToComplete
    ensures
      var p := RunPhase(ctx, t);
      && (p.state.phase == CleanupMigrationResources <==> p.ok && forall n :: n in RunningNames(t.running) ==> HasMoved(ctx, t.api.cluster, n))
      && (p.state.phase != CleanupMigrationResources ==> p.state.phase == t.phase && (p.ok ==> p.state.requeue == PollReQ))
  {
    WaitLoopLists(ctx, t, t.running, []);
    var p := RunPhase(ctx, t);
    if p.ok {
      WaitPassExactly(ctx, t);
      var running := RunningNames(p.state.running);
      assert |running| == |p.state.running|;
      forall n {:trigger HasMoved(ctx, t.api.cluster, n)} | n in RunningNames(t.running) ensures n in running <==> !HasMoved(ctx, t.api.cluster, n) {
      }
      if running != [] {
        SplitHas(ctx, t.api.cluster, RunningNames(t.running), false, running[0]);
        assert running[0] in running;
      }
      WaitLoopPolls(ctx, t, t.running, []);
    }
  }

  lemma {:induction false} WaitLoopPolls(ctx: Context, t: TaskState, rest: seq<Running>, running: seq<Running>)
    requires WaitLoop(ctx, t, rest, running).ok
    ensures WaitLoop(ctx, t, rest, running).state.requeue == PollReQ
    decreases rest
  {
    if rest != [] {
      var (api, verdict) := WaitOne(ctx, t.api, rest[0]);
      match verdict {
        case Waiting(entry) => WaitLoopPolls(ctx, t.(api := api), rest[1..], running + [entry]);
        case Done => WaitLoopPolls(ctx, t.(api := api, completed := t.completed + [rest[0].name]), rest[1..], running);
      }
    }
  }

  /** A wait pass in which no call fails gets through, if the plan is there and names the destinations. */
  lemma {:induction false} FaultlessWait(ctx: Context, t: TaskState, rest: seq<Running>, running: seq<Running>)
    requires Faultless(t.api) && ctx.plan.Some?
    requires forall e, i :: e in ctx.plan.value.ready + ctx.plan.value.inProgress && 0 <= i < |e.targets| ==> e.targets[i].destination.Some?
    ensures WaitLoop(ctx, t, rest, running).ok
    decreases rest
  {
    if rest != [] {
      var (api, verdict) := WaitOne(ctx, t.api, rest[0]);
      var vmi := CheckVMI(t.api, rest[0].name);
      CalledIsFaultless(t.api);
      if vmi.result.value {
        CalledIsFaultless(vmi.api);
        CalledIsFaultless(vmi.api.Called());
      } else {
        var found := FindEntry(Cancellable(ctx.plan), rest[0].name);
        FindEntryAt(Cancellable(ctx.plan), rest[0].name);
        if found.Some? {
          assert found.value in ctx.plan.value.ready + ctx.plan.value.inProgress;
          FaultlessOffline(ctx.namespace, vmi.api, found.value.targets);
        }
      }
      match verdict {
        case WaitError =>
        case Waiting(entry) => FaultlessWait(ctx, t.(api := api), rest[1..], running + [entry]);
        case Done => FaultlessWait(ctx, t.(api := api, completed := t.completed + [rest[0].name]), rest[1..], running);
      }
    }
  }

  lemma CalledIsFaultless(api: Api)
    requires Faultless(api)
    ensures !api.Fails() && Faultless(api.Called())
  {
    assert api.faults != [] ==> !api.faults[0];
    forall k | 0 <= k < |api.Called().faults| ensures !api.Called().faults[k] {
      assert api.Called().faults[k] == api.faults[k + 1];
    }
  }

  lemma {:induction false} FaultlessOffline(ns: string, api: Api, targets: seq<TargetPVC>)
    requires Faultless(api) && forall i :: 0 <= i < |targets| ==> targets[i].destination.Some?
    ensures OfflineDone(ns, api, targets).result.Ok? && Faultless(OfflineDone(ns, api, targets).api)
    decreases targets
  {
    if targets != [] {
      CalledIsFaultless(api);
      FaultlessOffline(ns, api.Called(), targets[1..]);
    }
  }

  // ----- Cleanup -----

  /** deleteSource is asked for and VMs were completed, but the plan records no source of any of them yet. */
  ghost predicate AwaitsSources(plan: Option<Plan>, completed: seq<string>) {
    plan.Some? && plan.value.deleteSource && completed != [] && forall k :: !RecordedSource(plan.value, completed, k)
  }

  lemma NoSourcesIff(plan: Plan, completed: seq<string>)
    ensures SourcesToDelete(plan.completed, completed) == [] <==> forall k :: !RecordedSource(plan, completed, k)
  {
    var sources := SourcesToDelete(plan.completed, completed);
    if sources != [] {
      SourcesToDeleteAt(plan.completed, completed, sources[0]);
      assert RecordedSource(plan, completed, KeyOf(sources[0]));
    }
    forall k | RecordedSource(plan, completed, k) ensures sources != [] {
      var e, c :| e in plan.completed && e.name in completed && c in e.sources && KeyOf(c) == k;
      SourcesToDeleteAt(plan.completed, completed, c);
    }
  }

  lemma {:induction false} FaultlessDeletes(api: Api, rest: seq<SourcePVC>, seen: set<string>)
    requires Faultless(api)
    ensures DeleteSources(api, rest, seen).result.Ok?
    decreases rest
  {
    if rest != [] {
      if DedupKey(rest[0]) in seen {
        FaultlessDeletes(api, rest[1..], seen);
      } else {
        CalledIsFaultless(api);
        CalledIsFaultless(api.Called());
        var r := DeleteSource(api, rest[0]);
        assert r.result.Ok? && r.api.faults in {api.Called().faults, api.Called().Called().faults};
        assert Faultless(r.api);
        FaultlessDeletes(r.api, rest[1..], seen + {DedupKey(rest[0])});
      }
    }
  }

  /** Cleanup ends only when leftovers are gone and sources are not awaited, and then takes the finalizer off; until then
      phase and finalizers stay. When no call fails, that is exactly when it ends. */
  lemma CleanupMovesOn(ctx: Context, t: TaskState)
    requires t.phase == CleanupMigrationResources
    ensures
      var p := RunPhase(ctx, t);
      && (p.state.phase == Completed ==> p.ok && t.api.cluster.leftoversGone && !AwaitsSources(ctx.plan, t.completed))
      && (Faultless(t.api) && t.api.cluster.leftoversGone && !AwaitsSources(ctx.plan, t.completed) ==> p.state.phase == Completed)
      && p.state.finalizers == (if p.state.phase == Completed then RemoveFinalizer(t.finalizers, MIGRATION_FINALIZER) else t.finalizers)
      && (p.state.phase != Completed ==> p.state.phase == t.phase && (p.ok ==> p.state.requeue == PollReQ))
      && (Faultless(t.api) && t.api.cluster.leftoversGone && AwaitsSources(ctx.plan, t.completed) ==> !p.ok && p.state.requeue == PollReQ)
  {
    if ctx.plan.Some? {
      NoSourcesIff(ctx.plan.value, t.completed);
    }
    if Faultless(t.api) {
      CalledIsFaultless(t.api);
      if ctx.plan.Some? {
        FaultlessDeletes(Leftovers(t.api).api, SourcesToDelete(ctx.plan.value.completed, t.completed), {});
      }
    }
  }

  lemma {:induction false} FaultlessTargets(ns: string, api: Api, targets: seq<TargetPVC>)
    requires Faultless(api)
    ensures DeleteTargets(ns, api, targets).result.Ok? && Faultless(DeleteTargets(ns, api, targets).api)
    decreases targets
  {
    if targets != [] {
      if targets[0].destination.None? {
        FaultlessTargets(ns, api, targets[1..]);
      } else {
        CalledIsFaultless(api);
        CalledIsFaultless(api.Called());
        var key := Key(ns, targets[0].destination.value);
        FaultlessTargets(ns, if key in api.cluster.dvs then DeleteDV(api.Called(), key).api else api.Called(), targets[1..]);
      }
    }
  }

  lemma {:induction false} FaultlessEntries(ns: string, api: Api, entries: seq<PlanVM>, name: string)
    requires Faultless(api)
    ensures DeleteEntries(ns, api, entries, name).result.Ok? && Faultless(DeleteEntries(ns, api, entries, name).api)
    decreases entries
  {
    if entries != [] {
      if entries[0].name != name {
        FaultlessEntries(ns, api, entries[1..], name);
      } else {
        FaultlessTargets(ns, api, entries[0].targets);
        FaultlessEntries(ns, DeleteTargets(ns, api, entries[0].targets).api, entries[1..], name);
      }
    }
  }

  lemma {:induction false} FaultlessCancelled(ctx: Context, api: Api, cancelled: seq<string>)
    requires Faultless(api)
    ensures DeleteCancelled(ctx, api, cancelled).result.Ok?
    decreases cancelled
  {
    if cancelled != [] {
      FaultlessEntries(ctx.namespace, api, Cancellable(ctx.plan), cancelled[0]);
      FaultlessCancelled(ctx, DeleteEntries(ctx.namespace, api, Cancellable(ctx.plan), cancelled[0]).api, cancelled[1..]);
    }
  }

  /** Cancel cleanup ends only when leftovers are gone; when no call fails, exactly then. The finalizer stays on. */
  lemma CancelCleanupMovesOn(ctx: Context, t: TaskState)
    requires t.phase == CleanupCancelledMigrations
    ensures
      var p := RunPhase(ctx, t);
      && (p.state.phase == Canceled ==> p.ok && t.api.cluster.leftoversGone)
      && (Faultless(t.api) && t.api.cluster.leftoversGone ==> p.state.phase == Canceled)
      && (p.state.phase != Canceled ==> p.state.phase == t.phase && (p.ok ==> p.state.requeue == PollReQ))
      && p.state.finalizers == t.finalizers && p.state.cancelled == t.cancelled
  {
    if Faultless(t.api) {
      CalledIsFaultless(t.api);
      FaultlessCancelled(ctx, Leftovers(t.api).api, t.cancelled);
    }
  }

  /** A cancelled migration stays so, and its finalizer goes. */
  lemma CanceledIsReleased(ctx: Context, t: TaskState)
    requires t.phase == Canceled
    ensures RunPhase(ctx, t).ok && RunPhase(ctx, t).state == t.(finalizers := RemoveFinalizer(t.finalizers, MIGRATION_FINALIZER))
  {
  }

  // ----- Deletion, in runs -----

  /** In every run, deleting a migration whose plan is not held cancels it: a reconcile whose writes go through leaves it
      in the cancel pipeline, unless it is Completed. */
  lemma DeletionCancels(states: seq<System>, events: seq<Event>, table: Confinement.Table, i: nat)
    requires IsRun(states, events, table) && i < |events| && events[i].ReconcilePass? && events[i].o.metaOk && events[i].o.statusOk
    requires states[i].mig.deleting && !PlanIsHeld(states[i].plan) && states[i].mig.phase != Completed
    ensures states[i + 1].mig.phase in {Canceling, CleanupCancelledMigrations, Canceled}
  {
    var s, o := states[i], events[i].o;
    assert Next(s, events[i], states[i + 1], table);
    if s.mig.phase != Canceled {
      RunsHandlerOf(s, o);
      StoredExactly(s, o);
      RunPhaseShape(ContextOf(s), Entered(s, o));
    }
  }
}
