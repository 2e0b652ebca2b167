/** Reconciling a stored migration: run one pass, then write metadata and status, in that order. */
module MigrationController {
  import opened Basics
  import opened Objects
  import opened ClusterApi
  import opened TaskSpec
  import opened MigrationTask

  datatype Migration = Migration(
    namespace: string,
    created: nat,
    deleting: bool,
    finalizers: seq<string>,
    phase: Phase,
    running: seq<Running>,
    completed: seq<string>,
    cancelled: seq<string>)

  datatype System = System(mig: Migration, plan: Option<Plan>, cluster: Cluster)

  /** What a reconcile meets: failing calls, a blocking condition, and the fate of the two writes.
      Stopping between the writes is metaOk && !statusOk; stopping before them is !metaOk. */
  datatype Outcome = Outcome(faults: seq<bool>, blocked: bool, metaOk: bool, statusOk: bool)

  function ContextOf(s: System): Context {
    Context(s.mig.namespace, s.mig.created, s.mig.deleting, s.plan)
  }

  function Loaded(s: System, faults: seq<bool>): TaskState {
    TaskState(s.mig.phase, s.mig.running, s.mig.completed, s.mig.cancelled, s.mig.finalizers, Api(s.cluster, faults, []), NoReQ)
  }

  function Unloaded(mig: Migration, t: TaskState): Migration {
    mig.(phase := t.phase, running := t.running, completed := t.completed, cancelled := t.cancelled, finalizers := t.finalizers)
  }

  /** A pass runs unless the migration is finished, or is blocked (a missing plan blocks) and not being deleted. */
  predicate Runs(s: System, o: Outcome) {
    && s.mig.phase != Completed
    && !(s.mig.deleting && s.mig.phase == Canceled)
    && ((!o.blocked && s.plan.Some?) || s.mig.deleting)
  }

  /** The in-memory state when the pass is over. */
  function Reconciled(s: System, o: Outcome): TaskState {
    var t := Loaded(s, o.faults);
    if s.mig.deleting && s.mig.phase in {Canceled, Completed} then
      t.(finalizers := RemoveFinalizer(t.finalizers, MIGRATION_FINALIZER))
    else if Runs(s, o) then RunTask(ContextOf(s), t).state
    else t
  }

  /** Metadata is written first, status only after it; a failed write leaves the rest as stored. */
  function Persisted(stored: Migration, desired: Migration, metaOk: bool, statusOk: bool): Migration {
    if !metaOk then stored
    else if !statusOk then stored.(finalizers := desired.finalizers)
    else desired
  }

  function Reconcile(s: System, o: Outcome): System {
    var t := Reconciled(s, o);
    System(Persisted(s.mig, Unloaded(s.mig, t), o.metaOk, o.statusOk), s.plan, t.api.cluster)
  }

  class MigrationReconciler {
    var stored: Migration
    var plan: Option<Plan>
    var cluster: Cluster

    function Sys(): System
      reads this
    {
      System(stored, plan, cluster)
    }

    constructor (s: System)
      ensures Sys() == s
    {
      stored, plan, cluster := s.mig, s.plan, s.cluster;
    }

    method PersistMigration(desired: Migration, metaOk: bool, statusOk: bool)
      requires desired == stored.(phase := desired.phase, running := desired.running, completed := desired.completed, cancelled := desired.cancelled, finalizers := desired.finalizers)
      modifies this`stored
      ensures stored == Persisted(old(stored), desired, metaOk, statusOk)
    {
      if !metaOk {
        return;
      }
      stored := stored.(finalizers := desired.finalizers);
      if !statusOk {
        return;
      }
      stored := stored.(phase := desired.phase, running := desired.running, completed := desired.completed, cancelled := desired.cancelled);
    }

    method ReconcileMigration(o: Outcome)
      modifies this
      ensures Sys() == Reconcile(old(Sys()), o)
    {
      var t := Loaded(Sys(), o.faults);
      if stored.deleting && (stored.phase == Canceled || stored.phase == Completed) {
        t := t.(finalizers := RemoveFinalizer(t.finalizers, MIGRATION_FINALIZER));
      } else if stored.phase == Completed {
        return;
      } else if (!o.blocked && plan.Some?) || stored.deleting {
        var task := new Task(ContextOf(Sys()), t);
        var ok := task.Run();
        t := task.State();
      }
      cluster := t.api.cluster;
      PersistMigration(Unloaded(stored, t), o.metaOk, o.statusOk);
    }
  }
}
