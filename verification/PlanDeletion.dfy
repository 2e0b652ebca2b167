/** Deleting a plan: its finalizer against the cancel decision of its migrations. */
module PlanDeletion {
  import opened Basics
  import opened Objects
  import opened ClusterApi
  import opened TaskSpec
  import opened MigrationController
  import opened MigrationRun

  predicate Terminal(p: Phase) {
    p == Completed || p == Canceled
  }

  /** hasActiveMigrations */
  method HasActiveMigrations(phases: seq<Phase>) returns (active: bool)
    ensures active <==> exists i :: 0 <= i < |phases| && !Terminal(phases[i])
  {
    for i := 0 to |phases|
      invariant forall k :: 0 <= k < i ==> Terminal(phases[k])
    {
      if phases[i] != Completed && phases[i] != Canceled {
        return true;
      }
    }
    return false;
  }

  /** The deletion branch of the plan reconcile: the finalizer goes exactly when no listed migration is active. */
  method ReconcileDeletion(finalizers: seq<string>, phases: seq<Phase>) returns (r: seq<string>)
    ensures (exists i :: 0 <= i < |phases| && !Terminal(phases[i])) ==> r == finalizers
    ensures (forall i :: 0 <= i < |phases| ==> Terminal(phases[i])) ==> r == RemoveFinalizer(finalizers, PLAN_FINALIZER)
  {
    var active := HasActiveMigrations(phases);
    r := if active then finalizers else RemoveFinalizer(finalizers, PLAN_FINALIZER);
  }

  // ----- Every interleaving -----

  datatype PlanMeta = PlanMeta(deleting: bool, finalizers: seq<string>)

  datatype MigrationMeta = MigrationMeta(phase: Phase, deleting: bool)

  /** Migrations are keyed by UID, which is never reused. `decided` holds the migrations an unfinished plan
      reconcile saw, all of them finished, when it decided to remove the finalizer. */
  datatype Deletion = Deletion(
    plan: Option<PlanMeta>,
    migrations: map<string, MigrationMeta>,
    usedUIDs: set<string>,
    decided: Option<set<string>>)

  function MetaOf(plan: Option<Plan>): Option<PlanMeta> {
    if plan.None? then None else Some(PlanMeta(plan.value.deleting, plan.value.finalizers))
  }

  /** Some reconcile of a migration in this phase, next to this plan, can store phase `q`. */
  ghost predicate CanStore(m: MigrationMeta, plan: Option<PlanMeta>, q: Phase) {
    exists s: System, o: Outcome ::
      s.mig.phase == m.phase && s.mig.deleting == m.deleting && MetaOf(s.plan) == plan && Reconcile(s, o).mig.phase == q
  }

  datatype Step =
    | ReconcileMigration(uid: string, phase: Phase)
    | PlanReads
    | PlanWrites(accepted: bool)
    | Delete(uid: string)
    | Create(uid: string)
    | Vanish(uid: string)
    | PlanVanishes
    | OtherFinalizers(finalizers: seq<string>)

  ghost predicate Happens(d: Deletion, step: Step, d': Deletion) {
    match step
    case ReconcileMigration(u, q) =>
      u in d.migrations && CanStore(d.migrations[u], d.plan, q)
      && d' == d.(migrations := d.migrations[u := d.migrations[u].(phase := q)])
    case PlanReads =>
      d.plan.Some? && d.plan.value.deleting && (forall u :: u in d.migrations ==> Terminal(d.migrations[u].phase))
      && d' == d.(decided := Some(d.migrations.Keys))
    case PlanWrites(accepted) =>
      d.plan.Some? && d.decided.Some?
      && d' == d.(decided := None, plan := if accepted then Some(d.plan.value.(finalizers := RemoveFinalizer(d.plan.value.finalizers, PLAN_FINALIZER))) else d.plan)
    case Delete(u) =>
      u in d.migrations && d' == d.(migrations := d.migrations[u := d.migrations[u].(deleting := true)])
    case Create(u) =>
      u !in d.usedUIDs && d' == d.(migrations := d.migrations[u := MigrationMeta(NoPhase, false)], usedUIDs := d.usedUIDs + {u})
    case Vanish(u) =>
      u in d.migrations && d' == d.(migrations := d.migrations - {u})
    case PlanVanishes =>
      d.plan.Some? && d.plan.value.deleting && PLAN_FINALIZER !in d.plan.value.finalizers && d' == d.(plan := None, decided := None)
    case OtherFinalizers(fs) =>
      d.plan.Some? && (PLAN_FINALIZER in fs <==> PLAN_FINALIZER in d.plan.value.finalizers)
      && d' == d.(plan := Some(d.plan.value.(finalizers := fs)))
  }

  ghost predicate IsDeletionRun(ds: seq<Deletion>, steps: seq<Step>) {
    && |ds| == |steps| + 1
    && forall i :: 0 <= i < |steps| ==> Happens(ds[i], steps[i], ds[i + 1])
  }

  /** Plan deletion begins: the plan is marked, its finalizer is present, nothing is decided. */
  ghost predicate DeletionBegins(d: Deletion) {
    && d.plan.Some? && d.plan.value.deleting && PLAN_FINALIZER in d.plan.value.finalizers && d.decided.None?
    && d.migrations.Keys <= d.usedUIDs
  }

  predicate Held(d: Deletion) {
    d.plan.Some? && d.plan.value.deleting && PLAN_FINALIZER in d.plan.value.finalizers
  }

  /** `tracked` are the migrations that were there, outside the cancel pipeline, when the deletion began. */
  ghost predicate DeletionInvariant(d: Deletion, tracked: set<string>) {
    && tracked <= d.usedUIDs && d.migrations.Keys <= d.usedUIDs
    && (d.plan.Some? ==> d.plan.value.deleting)
    && (forall u :: u in tracked && u in d.migrations ==> !InPipeline(d.migrations[u].phase))
    && (!Held(d) ==> forall u :: u in tracked && u in d.migrations ==> d.migrations[u].phase == Completed)
    && (d.decided.Some? ==> d.decided.value <= d.usedUIDs)
    && (d.decided.Some? ==> forall u :: u in d.decided.value && u in d.migrations ==> Terminal(d.migrations[u].phase))
    && (d.decided.Some? ==> forall u :: u in tracked && u in d.migrations ==> u in d.decided.value)
  }

  lemma StoredPhase(m: MigrationMeta, plan: Option<PlanMeta>, q: Phase)
    requires CanStore(m, plan, q)
    ensures Terminal(m.phase) ==> q == m.phase
    ensures InPipeline(m.phase) ==> InPipeline(q)
    ensures !InPipeline(m.phase) && InPipeline(q) ==> m.deleting && !(plan.Some? && plan.value.deleting && PLAN_FINALIZER in plan.value.finalizers)
  {
    var s: System, o: Outcome :|
      s.mig.phase == m.phase && s.mig.deleting == m.deleting && MetaOf(s.plan) == plan && Reconcile(s, o).mig.phase == q;
    ReconcilePhase(s, o);
  }

  lemma StepKeepsInvariant(d: Deletion, step: Step, d': Deletion, tracked: set<string>)
    requires DeletionInvariant(d, tracked) && Happens(d, step, d')
    ensures DeletionInvariant(d', tracked)
  {
    match step {
      case ReconcileMigration(u, q) =>
        StoredPhase(d.migrations[u], d.plan, q);
      case _ =>
    }
  }

  function TrackedAt(d: Deletion): set<string> {
    set u | u in d.migrations && !InPipeline(d.migrations[u].phase)
  }

  /** Plan deletion never cancels in-flight work: in every interleaving that starts when the deletion begins, a
      migration that was outside the cancel pipeline then is never in it later, and once the finalizer is gone each
      such migration is Completed (or has itself gone). */
  lemma {:induction false} PlanDeletionNeverCancels(ds: seq<Deletion>, steps: seq<Step>, i: nat)
    requires IsDeletionRun(ds, steps) && i < |ds| && DeletionBegins(ds[0])
    ensures DeletionInvariant(ds[i], TrackedAt(ds[0]))
    ensures forall u :: u in TrackedAt(ds[0]) && u in ds[i].migrations ==> ds[i].migrations[u].phase !in {Canceling, Canceled}
    ensures !Held(ds[i]) ==> forall u :: u in TrackedAt(ds[0]) && u in ds[i].migrations ==> ds[i].migrations[u].phase == Completed
  {
    if i > 0 {
      PlanDeletionNeverCancels(ds, steps, i - 1);
      assert Happens(ds[i - 1], steps[i - 1], ds[i]);
      StepKeepsInvariant(ds[i - 1], steps[i - 1], ds[i], TrackedAt(ds[0]));
    }
  }

  /** The finalizer is removed only when every migration the deciding read saw is Completed or Canceled, still so at
      the moment of the write; a migration that is active then was created after that read. */
  lemma FinalizerGoesLast(ds: seq<Deletion>, steps: seq<Step>, i: nat)
    requires IsDeletionRun(ds, steps) && i < |steps| && DeletionBegins(ds[0])
    requires Held(ds[i]) && !Held(ds[i + 1])
    ensures steps[i] == PlanWrites(true) && ds[i].decided.Some?
    ensures forall u :: u in ds[i].migrations && u in ds[i].decided.value ==> Terminal(ds[i].migrations[u].phase)
    ensures forall u :: u in ds[i].migrations && !Terminal(ds[i].migrations[u].phase) ==> u !in ds[i].decided.value && u !in TrackedAt(ds[0])
  {
    PlanDeletionNeverCancels(ds, steps, i);
    assert Happens(ds[i], steps[i], ds[i + 1]);
  }
}
