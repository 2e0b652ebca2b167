/** Whole runs of one migration: any interleaving of reconciles (failed, retried, half-persisted) with an
    environment that flips VMIs, VMIMs, DataVolumes, claims, plan lists and the deletion mark. */
module MigrationRun {
  import opened Basics
  import opened Objects
  import opened VolumeRewrite
  import opened Confinement
  import opened ClusterApi
  import opened TaskSpec
  import opened PassEffects
  import opened MigrationController

  datatype Event = ReconcilePass(o: Outcome) | Environment

  /** The environment never edits VM specs, never clears a deletion mark, never touches the migration's own
      finalizer or status, and keeps the recorded moves in the plan's lists; everything else is free. */
  ghost predicate EnvironmentStep(s: System, s': System, table: Table) {
    && s'.mig == s.mig.(deleting := s'.mig.deleting, finalizers := s'.mig.finalizers)
    && (s.mig.deleting ==> s'.mig.deleting)
    && (MIGRATION_FINALIZER in s'.mig.finalizers <==> MIGRATION_FINALIZER in s.mig.finalizers)
    && PlanMatches(s'.plan, table)
    && forall n :: n in s'.cluster.vms ==> n in s.cluster.vms && SameSpec(s.cluster.vms[n], s'.cluster.vms[n])
  }

  ghost predicate Next(s: System, ev: Event, s': System, table: Table) {
    match ev
    case ReconcilePass(o) => s' == Reconcile(s, o)
    case Environment => EnvironmentStep(s, s', table)
  }

  ghost predicate IsRun(states: seq<System>, events: seq<Event>, table: Table) {
    && |states| == |events| + 1
    && forall i :: 0 <= i < |events| ==> Next(states[i], events[i], states[i + 1], table)
  }

  // ----- What each loop does to the lists -----

  lemma {:induction false} WaitLoopLists(ctx: Context, t: TaskState, rest: seq<Running>, running: seq<Running>)
    ensures
      var p := WaitLoop(ctx, t, rest, running);
      && p.state == t.(phase := p.state.phase, running := p.state.running, completed := p.state.completed, api := p.state.api, requeue := p.state.requeue)
      && p.state.api.cluster == t.api.cluster && p.state.api.writes == t.api.writes
      && (!p.ok ==> p.state.phase == t.phase && p.state.running == t.running)
      && (!p.ok ==> SetOf(t.completed) <= SetOf(p.state.completed) <= SetOf(t.completed) + SetOf(RunningNames(rest)))
      && (p.ok ==> p.state.phase == if p.state.running == [] then CleanupMigrationResources else t.phase)
      && (p.ok ==> SetOf(RunningNames(p.state.running)) + SetOf(p.state.completed) == SetOf(RunningNames(running)) + SetOf(RunningNames(rest)) + SetOf(t.completed))
    decreases rest
  {
    if rest == [] {
      assert SetOf(RunningNames(rest)) == {};
    } else {
      var (api, verdict) := WaitOne(ctx, t.api, rest[0]);
      WaitOneSteady(ctx, t.api, rest[0]);
      assert rest == [rest[0]] + rest[1..];
      assert RunningNames(rest) == [rest[0].name] + RunningNames(rest[1..]);
      assert SetOf(RunningNames(rest)) == {rest[0].name} + SetOf(RunningNames(rest[1..]));
      match verdict {
        case WaitError =>
        case Waiting(entry) =>
          RunningNamesAppend(running, entry);
          WaitLoopLists(ctx, t.(api := api), rest[1..], running + [entry]);
        case Done =>
          assert SetOf(t.completed + [rest[0].name]) == SetOf(t.completed) + {rest[0].name};
          WaitLoopLists(ctx, t.(api := api, completed := t.completed + [rest[0].name]), rest[1..], running);
      }
    }
  }

  lemma {:induction false} OfflineDoneSteady(ns: string, api: Api, targets: seq<TargetPVC>)
    ensures OfflineDone(ns, api, targets).api.cluster == api.cluster && OfflineDone(ns, api, targets).api.writes == api.writes
    decreases targets
  {
    if targets != [] {
      OfflineDoneSteady(ns, api.Called(), targets[1..]);
    }
  }

  /** Checking a VM changes nothing in the cluster, and keeps the VM's name. */
  lemma WaitOneSteady(ctx: Context, api: Api, r: Running)
    ensures WaitOne(ctx, api, r).0.cluster == api.cluster && WaitOne(ctx, api, r).0.writes == api.writes
    ensures WaitOne(ctx, api, r).1.Waiting? ==> WaitOne(ctx, api, r).1.entry.name == r.name
  {
    var vmi := CheckVMI(api, r.name);
    if vmi.result.Ok? && !vmi.result.value && ctx.plan.Some? {
      var found := FindEntry(Cancellable(ctx.plan), r.name);
      if found.Some? {
        OfflineDoneSteady(ctx.namespace, vmi.api, found.value.targets);
      }
    }
  }

  lemma {:induction false} CancelLoopLists(ctx: Context, t: TaskState, rest: seq<Running>, running: seq<Running>, cancelled: seq<string>)
    ensures
      var p := CancelLoop(ctx, t, rest, running, cancelled);
      && p.state == t.(phase := p.state.phase, running := p.state.running, cancelled := p.state.cancelled, api := p.state.api, requeue := p.state.requeue)
      && (!p.ok ==> p.state == t.(api := p.state.api))
      && (p.ok ==> p.state.phase == if p.state.running == [] then CleanupCancelledMigrations else t.phase)
      && (p.ok ==> multiset(RunningNames(p.state.running)) + multiset(p.state.cancelled) == multiset(RunningNames(running)) + multiset(cancelled) + multiset(RunningNames(rest)))
    decreases rest
  {
    if rest == [] {
      assert RunningNames(rest) == [];
    } else {
      var (api, verdict) := CancelOne(ctx, t.api, rest[0].name);
      assert RunningNames(rest) == [rest[0].name] + RunningNames(rest[1..]);
      match verdict {
        case CancelError =>
        case StillRunning =>
          RunningNamesAppend(running, rest[0]);
          CancelLoopLists(ctx, t.(api := api), rest[1..], running + [rest[0]], cancelled);
        case NowCancelled =>
          CancelLoopLists(ctx, t.(api := api), rest[1..], running, cancelled + [rest[0].name]);
      }
    }
  }

  lemma {:induction false} BeginLoopLists(ctx: Context, t: TaskState, rest: seq<PlanVM>)
    ensures
      var p := BeginLoop(ctx, t, rest);
      && p.state == t.(phase := p.state.phase, running := p.state.running, api := p.state.api)
      && p.state.phase == if p.ok then WaitForLiveMigrationToComplete else t.phase
    decreases rest
  {
    if rest != [] {
      var (api, verdict) := BeginOne(ctx, t.api, rest[0]);
      if verdict == Began {
        BeginLoopLists(ctx, t.(api := api, running := t.running + [Running(rest[0].name, "")]), rest[1..]);
      } else if verdict == Skipped {
        BeginLoopLists(ctx, t.(api := api), rest[1..]);
      }
    }
  }

  // ----- Phase progress -----

  /** The phase a pass can move to from the phase it was entered in. */
  predicate PhaseMove(p: Phase, q: Phase) {
    || q == p
    || (p == Started && q == RefreshStorageMigrationPlan)
    || (p == RefreshStorageMigrationPlan && q == WaitForStorageMigrationPlanRefreshCompletion)
    || (p == WaitForStorageMigrationPlanRefreshCompletion && q == BeginLiveMigration)
    || (p == BeginLiveMigration && q == WaitForLiveMigrationToComplete)
    || (p == WaitForLiveMigrationToComplete && q == CleanupMigrationResources)
    || (p == CleanupMigrationResources && q == Completed)
    || (p == Canceling && q == CleanupCancelledMigrations)
    || (p == CleanupCancelledMigrations && q == Canceled)
  }

  /** How one pass changes the phase, the lists and the finalizer, phase by phase. */
  ghost predicate PassShape(t: TaskState, t': TaskState) {
    && PhaseMove(t.phase, t'.phase)
    && (t.phase != BeginLiveMigration && t.phase != WaitForLiveMigrationToComplete && t.phase != Canceling ==> t'.running == t.running)
    && (t.phase != WaitForLiveMigrationToComplete ==> t'.completed == t.completed)
    && (t.phase != Canceling ==> t'.cancelled == t.cancelled)
    && (t.phase == WaitForLiveMigrationToComplete ==>
          SetOf(RunningNames(t'.running)) + SetOf(t'.completed) == SetOf(RunningNames(t.running)) + SetOf(t.completed))
    && (t.phase == WaitForLiveMigrationToComplete && t'.phase == CleanupMigrationResources ==> t'.running == [])
    && (t.phase == Canceling && t'.phase == CleanupCancelledMigrations ==> t'.running == [])
    && (t'.finalizers == t.finalizers
        || (t.phase == Started && t'.finalizers == AddFinalizer(t.finalizers, MIGRATION_FINALIZER))
        || (t.phase in {CleanupMigrationResources, Canceled} && t'.finalizers == RemoveFinalizer(t.finalizers, MIGRATION_FINALIZER)))
    && (t.phase == Started ==> t'.finalizers == AddFinalizer(t.finalizers, MIGRATION_FINALIZER))
  }

  lemma RunPhaseShape(ctx: Context, t: TaskState)
    ensures PassShape(t, RunPhase(ctx, t).state)
  {
    match t.phase {
      case BeginLiveMigration =>
        BeginLoopLists(ctx, t, Cancellable(ctx.plan));
      case WaitForLiveMigrationToComplete =>
        WaitLoopLists(ctx, t, t.running, []);
        assert RunningNames([]) == [] && SetOf<string>([]) == {};
      case Canceling =>
        CancelLoopLists(ctx, t, t.running, [], []);
      case _ =>
    }
  }

  predicate InPipeline(p: Phase) {
    p in {Canceling, CleanupCancelledMigrations, Canceled}
  }

  function Rank(p: Phase): nat {
    match p
    case NoPhase => 0
    case Started => 1
    case RefreshStorageMigrationPlan => 2
    case WaitForStorageMigrationPlanRefreshCompletion => 3
    case BeginLiveMigration => 4
    case WaitForLiveMigrationToComplete => 5
    case LiveMigrationFailed => 6
    case CleanupMigrationResources => 7
    case Canceling => 8
    case CleanupCancelledMigrations => 9
    case Canceled => 10
    case Completed => 11
  }

  /** One reconcile: the rank never drops, terminal phases stay, the pipeline is not left, and it is entered only
      by a deleting migration whose plan is not holding its own deletion. */
  lemma ReconcilePhase(s: System, o: Outcome)
    ensures
      var p, q := s.mig.phase, Reconcile(s, o).mig.phase;
      && Rank(p) <= Rank(q)
      && (p in {Completed, Canceled} ==> q == p)
      && (InPipeline(p) ==> InPipeline(q))
      && (!InPipeline(p) && InPipeline(q) ==> s.mig.deleting && !PlanHoldsDeletion(s.plan))
      && (q == Completed ==> p in {Completed, CleanupMigrationResources})
  {
    var t := Loaded(s, o.faults);
    RunPhaseShape(ContextOf(s), t.(requeue := NoReQ, phase := EntryPhase(ContextOf(s), t.phase)));
  }

  lemma NextPhase(s: System, ev: Event, s': System, table: Table)
    requires Next(s, ev, s', table)
    ensures Rank(s.mig.phase) <= Rank(s'.mig.phase)
    ensures s.mig.phase in {Completed, Canceled} ==> s'.mig.phase == s.mig.phase
    ensures InPipeline(s.mig.phase) ==> InPipeline(s'.mig.phase)
    ensures s'.mig.phase == Completed ==> s.mig.phase in {Completed, CleanupMigrationResources}
  {
    if ev.ReconcilePass? {
      ReconcilePhase(s, ev.o);
    }
  }

  /** Over every run, from any state: rank is monotone, Completed and Canceled absorb, the pipeline is never left,
      and a run that is ever Completed is never in the pipeline. */
  lemma {:induction false} PhaseProgress(states: seq<System>, events: seq<Event>, table: Table, i: nat, j: nat)
    requires IsRun(states, events, table) && i <= j < |states|
    ensures Rank(states[i].mig.phase) <= Rank(states[j].mig.phase)
    ensures states[i].mig.phase in {Completed, Canceled} ==> states[j].mig.phase == states[i].mig.phase
    ensures InPipeline(states[i].mig.phase) ==> InPipeline(states[j].mig.phase)
    ensures states[j].mig.phase == Completed ==> !InPipeline(states[i].mig.phase)
    ensures states[i].mig.phase == Completed ==> !InPipeline(states[j].mig.phase)
    decreases j - i
  {
    if i < j {
      assert Next(states[j - 1], events[j - 1], states[j], table);
      NextPhase(states[j - 1], events[j - 1], states[j], table);
      PhaseProgress(states, events, table, i, j - 1);
    }
  }

  // ----- Crash-consistent finalizer -----

  /** The finalizer protects every phase that can swap VMs, and nothing is running outside those phases. */
  ghost predicate FinalizerInvariant(m: Migration) {
    && (m.running != [] ==> MIGRATION_FINALIZER in m.finalizers)
    && (m.phase in {RefreshStorageMigrationPlan, WaitForStorageMigrationPlanRefreshCompletion, BeginLiveMigration, WaitForLiveMigrationToComplete} ==>
          MIGRATION_FINALIZER in m.finalizers)
    && (m.phase !in {BeginLiveMigration, WaitForLiveMigrationToComplete, LiveMigrationFailed, Canceling} ==> m.running == [])
  }

  lemma ReconcileKeepsFinalizer(s: System, o: Outcome)
    requires FinalizerInvariant(s.mig)
    ensures FinalizerInvariant(Reconcile(s, o).mig)
  {
    var t := Loaded(s, o.faults);
    var entered := t.(requeue := NoReQ, phase := EntryPhase(ContextOf(s), t.phase));
    RunPhaseShape(ContextOf(s), entered);
  }

  /** In every stored state of every run, also one left between the two writes, a running VM implies the finalizer. */
  lemma {:induction false} CrashConsistentFinalizer(states: seq<System>, events: seq<Event>, table: Table, i: nat)
    requires IsRun(states, events, table) && i < |states| && FinalizerInvariant(states[0].mig)
    ensures FinalizerInvariant(states[i].mig)
    ensures states[i].mig.running != [] ==> MIGRATION_FINALIZER in states[i].mig.finalizers
  {
    if i > 0 {
      CrashConsistentFinalizer(states, events, table, i - 1);
      assert Next(states[i - 1], events[i - 1], states[i], table);
      if events[i - 1].ReconcilePass? {
        ReconcileKeepsFinalizer(states[i - 1], events[i - 1].o);
      }
    }
  }

  // ----- No VM is lost -----

  function Listed(m: Migration): set<string> {
    SetOf(RunningNames(m.running)) + SetOf(m.completed)
  }

  predicate Waiting(p: Phase) {
    p in {WaitForLiveMigrationToComplete, CleanupMigrationResources, Completed}
  }

  lemma ReconcileKeepsListed(s: System, o: Outcome)
    requires Waiting(s.mig.phase) && !InPipeline(Reconcile(s, o).mig.phase)
    ensures Waiting(Reconcile(s, o).mig.phase) && Listed(Reconcile(s, o).mig) == Listed(s.mig)
  {
    var t := Loaded(s, o.faults);
    RunPhaseShape(ContextOf(s), t.(requeue := NoReQ, phase := EntryPhase(ContextOf(s), t.phase)));
  }

  /** From the moment a migration waits, as long as it is not cancelled, running and completed VMs together never
      change, through failed passes and lost writes; so what it lists when Completed is what it had begun. */
  lemma {:induction false} NoVMIsLost(states: seq<System>, events: seq<Event>, table: Table, i: nat, j: nat)
    requires IsRun(states, events, table) && i <= j < |states|
    requires Waiting(states[i].mig.phase) && !InPipeline(states[j].mig.phase)
    ensures Waiting(states[j].mig.phase) && Listed(states[j].mig) == Listed(states[i].mig)
    ensures FinalizerInvariant(states[0].mig) && states[j].mig.phase == Completed ==> SetOf(states[j].mig.completed) == Listed(states[i].mig)
    decreases j - i
  {
    if i < j {
      assert Next(states[j - 1], events[j - 1], states[j], table);
      NextPhase(states[j - 1], events[j - 1], states[j], table);
      NoVMIsLost(states, events, table, i, j - 1);
      if events[j - 1].ReconcilePass? {
        ReconcileKeepsListed(states[j - 1], events[j - 1].o);
      }
    }
    if FinalizerInvariant(states[0].mig) {
      CrashConsistentFinalizer(states, events, table, j);
    }
    assert RunningNames([]) == [] && SetOf<string>([]) == {};
  }

  /** The cancelled lists of a sequence of cancel passes, together. */
  function CancelledInAll(passes: seq<TaskState>): multiset<string> {
    if passes == [] then multiset{} else CancelledInAll(passes[..|passes| - 1]) + multiset(passes[|passes| - 1].cancelled)
  }

  /** `after` is what some successful cancel pass, in some context, left of a state running `before`. */
  ghost predicate CancelledFrom(before: seq<Running>, after: TaskState) {
    exists ctx: Context, t: TaskState :: t.running == before && CancelLoop(ctx, t, before, [], []) == Pass(after, true)
  }

  function RunningAfter(first: seq<Running>, passes: seq<TaskState>): seq<Running> {
    if passes == [] then first else passes[|passes| - 1].running
  }

  /** A chain of successful cancel passes; cluster, plan and faults may change freely between them. */
  ghost predicate CancelChain(first: seq<Running>, passes: seq<TaskState>) {
    passes != [] ==>
      var init := passes[..|passes| - 1];
      CancelChain(first, init) && CancelledFrom(RunningAfter(first, init), passes[|passes| - 1])
  }

  lemma OnePassConserves(before: seq<Running>, after: TaskState)
    requires CancelledFrom(before, after)
    ensures multiset(RunningNames(before)) == multiset(RunningNames(after.running)) + multiset(after.cancelled)
  {
    var ctx: Context, t: TaskState :| t.running == before && CancelLoop(ctx, t, before, [], []) == Pass(after, true);
    CancelLoopLists(ctx, t, before, [], []);
    assert RunningNames([]) == [];
  }

  /** No VM is dropped or doubled by cancelling, although every pass overwrites the cancelled list. */
  lemma {:induction false} CancelConservesVMs(first: seq<Running>, passes: seq<TaskState>)
    requires CancelChain(first, passes)
    ensures multiset(RunningNames(first)) == CancelledInAll(passes) + multiset(RunningNames(RunningAfter(first, passes)))
  {
    if passes != [] {
      var init := passes[..|passes| - 1];
      CancelConservesVMs(first, init);
      OnePassConserves(RunningAfter(first, init), passes[|passes| - 1]);
    }
  }
}
