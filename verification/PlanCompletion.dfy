/** When a plan counts as completed: exactly, for good, and lifted to every namespace of a multi-namespace plan. */
module PlanCompletion {
  import opened Basics
  import opened Objects
  import opened PlanNaming
  import opened PlanLists
  import opened PlanPartition

  // ----- AllSpecVMsCompleted -----

  /** As many completed VMs as spec VMs, no completed name blank or twice, every spec name among them. */
  predicate Covers(completed: seq<string>, spec: seq<string>) {
    && spec != [] && |completed| == |spec| && "" !in completed && Distinct(completed)
    && forall i :: 0 <= i < |spec| ==> spec[i] in completed
  }

  method AllSpecVMsCompleted(spec: seq<SpecVM>, completed: seq<PlanVM>) returns (r: bool)
    ensures r <==> Covers(Names(completed), SpecNames(spec))
  {
    var done, wanted := Names(completed), SpecNames(spec);
    if |spec| == 0 || |completed| != |spec| {
      return false;
    }
    var byName: set<string> := {};
    for i := 0 to |completed|
      invariant byName == SetOf(done[..i]) && Distinct(done[..i]) && "" !in done[..i]
    {
      assert done[..i + 1] == done[..i] + [completed[i].name];
      if completed[i].name == "" {
        assert done[i] in done;
        return false;
      }
      if completed[i].name in byName {
        assert exists k :: 0 <= k < i && done[k] == done[i];
        return false;
      }
      byName := byName + {completed[i].name};
    }
    assert done[..|done|] == done;
    for i := 0 to |spec|
      invariant forall k :: 0 <= k < i ==> wanted[k] in done
    {
      if spec[i].name !in byName {
        assert wanted[i] !in done;
        return false;
      }
    }
    return true;
  }

  /** Pigeonhole: for distinct spec names, covering them is being a permutation of them. */
  lemma CompletionIsPermutation(completed: seq<string>, spec: seq<string>)
    requires Distinct(spec) && spec != [] && "" !in spec
    ensures Covers(completed, spec) <==> multiset(completed) == multiset(spec)
  {
    if Covers(completed, spec) {
      DistinctCardinality(completed);
      DistinctCardinality(spec);
      SubsetOfSameSize(SetOf(spec), SetOf(completed));
      SameElementsArePermutation(completed, spec);
    }
    if multiset(completed) == multiset(spec) {
      PermutationIsDistinct(spec, completed);
      assert |completed| == |multiset(completed)| == |spec|;
      forall x ensures x in completed <==> x in spec {
        assert x in multiset(completed) <==> x in multiset(spec);
      }
    }
  }

  lemma SubsetOfSameSize<T>(a: set<T>, b: set<T>)
    requires a <= b && |a| == |b|
    ensures a == b
  {
    assert b == a + (b - a);
  }

  /** A covering list names every spec VM exactly once and no other VM if and only if the spec names are distinct. */
  lemma CoverIsExactIff(completed: seq<string>, spec: seq<string>)
    requires Covers(completed, spec)
    ensures multiset(completed) == multiset(spec) <==> Distinct(spec)
  {
    if multiset(completed) == multiset(spec) {
      PermutationIsDistinct(completed, spec);
    }
    if Distinct(spec) {
      forall x | x in spec ensures x != "" {
        assert x in completed;
      }
      CompletionIsPermutation(completed, spec);
    }
  }

  /** A spec that names a VM twice counts as completed although another VM stands in for it. */
  lemma RepeatedSpecNameMisleads()
    ensures Covers(["a", "b"], ["a", "a"]) && multiset(["a", "b"]) != multiset(["a", "a"])
  {
    assert ["a", "b"][0] == "a" && ["a", "b"][1] == "b";
    CoverIsExactIff(["a", "b"], ["a", "a"]);
  }

  // ----- PlanStatusShowsCompleted -----

  predicate ShowsCompleted(spec: seq<SpecVM>, lists: Lists) {
    Covers(Names(lists.completed), SpecNames(spec)) && Idle(lists)
  }

  /** Nothing is listed outside Completed. */
  predicate Idle(lists: Lists) {
    lists.ready == [] && lists.inProgress == [] && lists.failed == [] && lists.invalid == []
  }

  method PlanStatusShowsCompleted(spec: seq<SpecVM>, status: Option<Lists>) returns (r: bool)
    ensures r <==> status.Some? && ShowsCompleted(spec, status.value)
  {
    if status.None? {
      return false;
    }
    var all := AllSpecVMsCompleted(spec, status.value.completed);
    if !all {
      return false;
    }
    var s := status.value;
    return !(|s.ready| > 0 || |s.inProgress| > 0 || |s.failed| > 0 || |s.invalid| > 0);
  }

  // ----- Healing -----

  function Listed(lists: Lists): nat {
    |lists.ready| + |lists.inProgress| + |lists.failed| + |lists.completed| + |lists.invalid|
  }

  lemma {:induction false} SplitLength(es: seq<PlanVM>, names: seq<string>)
    ensures |Without(es, names)| + |Within(es, names)| == |es|
  {
    if es != [] {
      SplitLength(es[1..], names);
    }
  }

  lemma MoveKeepsCount(lists: Lists, done: seq<string>)
    ensures Listed(Moved(lists, done)) == Listed(lists) && |Moved(lists, done).completed| >= |lists.completed|
  {
    SplitLength(lists.ready, done);
    SplitLength(lists.inProgress, done);
  }

  /** A healed entry is the spec's, with its targets and without sources; a completed list that is not empty stays. */
  lemma HealedExactly(lists: Lists, spec: seq<SpecVM>)
    ensures
      var h := Healed(lists, spec);
      && h == lists.(completed := h.completed)
      && (lists.completed != [] ==> h == lists)
      && (lists.completed == [] ==>
            |h.completed| == |spec| && forall i :: 0 <= i < |spec| ==>
              h.completed[i].name == spec[i].name && h.completed[i].targets == spec[i].targets && h.completed[i].sources == [])
  {
  }

  lemma HealedCovers(lists: Lists, spec: seq<SpecVM>)
    requires lists.completed == [] && spec != [] && Distinct(SpecNames(spec)) && "" !in SpecNames(spec)
    ensures Covers(Names(Healed(lists, spec).completed), SpecNames(spec))
  {
    assert Names(Healed(lists, spec).completed) == SpecNames(spec);
  }

  /** What a run of reconciles with a Completed migration keeps after the first one. */
  ghost predicate AfterHealing(spec: seq<SpecVM>, before: Lists, lists: Lists) {
    && lists.completed != [] && Listed(lists) == |spec| + Listed(before)
    && (Idle(before) ==> lists == Healed(before, spec))
  }

  lemma HealingStep(getName: Namer, suffix: Option<string>, f: Facts, lists: Lists, spec: seq<SpecVM>, last: Option<seq<string>>, before: Lists)
    requires f.status == AllCompleted && spec != [] && before.completed == []
    requires lists == before || AfterHealing(spec, before, lists)
    ensures AfterHealing(spec, before, Reconciled(getName, suffix, f, lists, spec, last).0)
  {
    if last.Some? {
      MoveKeepsCount(Healed(lists, spec), last.value);
    }
  }

  /** Healing is exact: once a plan's migration is Completed, a plan whose completed list was empty shows completed
      after every later reconcile if and only if all its other lists were empty too. Otherwise a VM still listed is
      also healed into Completed, is listed twice from then on, and the plan never shows completed. */
  lemma {:induction false} HealingCompletesExactly(getName: Namer, suffix: Option<string>, spec: seq<SpecVM>,
                                                   states: seq<Lists>, facts: seq<Facts>, lasts: seq<Option<seq<string>>>, i: nat)
    requires spec != [] && Distinct(SpecNames(spec)) && "" !in SpecNames(spec)
    requires |states| == |facts| + 1 == |lasts| + 1 && 0 < i < |states| && states[0].completed == []
    requires forall k :: 0 <= k < |facts| ==> facts[k].status == AllCompleted && states[k + 1] == Reconciled(getName, suffix, facts[k], states[k], spec, lasts[k]).0
    ensures AfterHealing(spec, states[0], states[i])
    ensures ShowsCompleted(spec, states[i]) <==> Idle(states[0])
  {
    if i > 1 {
      HealingCompletesExactly(getName, suffix, spec, states, facts, lasts, i - 1);
    }
    HealingStep(getName, suffix, facts[i - 1], states[i - 1], spec, lasts[i - 1], states[0]);
    HealedCovers(states[0], spec);
  }

  // ----- Completion is absorbing -----

  /** The stored plan object; the spec is fixed. */
  datatype StoredPlan = StoredPlan(deleting: bool, finalizers: seq<string>, suffix: Option<string>, lists: Lists)

  /** What one reconcile of the plan meets: whether KubeVirt supports migration, facts, the deciding migration, whether a migration is active (Err: the
      listing failed), a fresh suffix, and which of the two writes, metadata then status, go through. */
  datatype PlanPass = PlanPass(kubevirt: bool, f: Facts, last: Result<Option<seq<string>>>, active: Result<bool>, freshSuffix: string, metaOk: bool, statusOk: bool)

  /** The plan a reconcile wants to store; None when it returns before persisting. */
  function Desired(getName: Namer, spec: seq<SpecVM>, p: StoredPlan, pass: PlanPass): Option<StoredPlan> {
    if !p.deleting && ShowsCompleted(spec, p.lists) then None
    else if p.deleting then
      if pass.active.Err? then None
      else if pass.active.value then Some(p)
      else Some(p.(finalizers := RemoveFinalizer(p.finalizers, PLAN_FINALIZER)))
    else if pass.last.Err? then None
    else
      var suffix := if p.suffix.None? then Some(pass.freshSuffix) else p.suffix;
      var lists := if pass.kubevirt then Reconciled(getName, suffix, pass.f, p.lists, spec, pass.last.value).0
                   else if pass.last.value.Some? then Moved(p.lists, pass.last.value.value) else p.lists;
      Some(StoredPlan(false, AddFinalizer(p.finalizers, PLAN_FINALIZER), suffix, lists))
  }

  function Stored(getName: Namer, spec: seq<SpecVM>, p: StoredPlan, pass: PlanPass): StoredPlan {
    var d := Desired(getName, spec, p, pass);
    if d.None? || (d.value.finalizers != p.finalizers && !pass.metaOk) then p
    else if !pass.statusOk then p.(finalizers := d.value.finalizers)
    else d.value
  }

  /** The plan object under the reconciler's steps. */
  class PlanController {
    const getName: Namer
    const spec: seq<SpecVM>
    var plan: StoredPlan

    constructor (getName: Namer, spec: seq<SpecVM>, plan: StoredPlan)
      ensures this.getName == getName && this.spec == spec && this.plan == plan
    {
      this.getName, this.spec, this.plan := getName, spec, plan;
    }

    method PersistPlan(desired: StoredPlan, metaOk: bool, statusOk: bool)
      requires desired.deleting == plan.deleting
      modifies this
      ensures plan ==
        if desired.finalizers != old(plan).finalizers && !metaOk then old(plan)
        else if !statusOk then old(plan).(finalizers := desired.finalizers)
        else desired
    {
      if desired.finalizers != plan.finalizers {
        if !metaOk {
          return;
        }
        plan := plan.(finalizers := desired.finalizers);
      }
      if plan.suffix != desired.suffix || plan.lists != desired.lists {
        if !statusOk {
          return;
        }
        plan := plan.(suffix := desired.suffix, lists := desired.lists);
      }
    }

    method Reconcile(pass: PlanPass)
      modifies this
      ensures plan == Stored(getName, spec, old(plan), pass)
    {
      if !plan.deleting {
        var completed := PlanStatusShowsCompleted(spec, Some(plan.lists));
        if completed {
          return;
        }
      }
      var desired := plan;
      if plan.deleting {
        if pass.active.Err? {
          return;
        }
        if !pass.active.value {
          desired := desired.(finalizers := RemoveFinalizer(desired.finalizers, PLAN_FINALIZER));
        }
      } else {
        desired := desired.(finalizers := AddFinalizer(desired.finalizers, PLAN_FINALIZER));
        if desired.suffix.None? {
          desired := desired.(suffix := Some(pass.freshSuffix));
        }
        var status := new PlanReconciler(getName, desired.suffix, spec, desired.lists);
        if pass.kubevirt {
          var _ := status.ValidateStorageMigrationPossible(pass.f);
        }
        if pass.last.Err? {
          return;
        }
        if pass.last.value.Some? {
          status.UpdateReadyCompletedMigrations(pass.last.value.value);
        }
        desired := desired.(lists := status.lists);
      }
      PersistPlan(desired, pass.metaOk, pass.statusOk);
    }
  }

  datatype PlanEvent = Pass(pass: PlanPass) | MarkDeleting | EditFinalizers(finalizers: seq<string>)

  ghost predicate PlanStep(getName: Namer, spec: seq<SpecVM>, p: StoredPlan, ev: PlanEvent, p': StoredPlan) {
    match ev
    case Pass(pass) => p' == Stored(getName, spec, p, pass)
    case MarkDeleting => p' == p.(deleting := true)
    case EditFinalizers(fs) => p' == p.(finalizers := fs)
  }

  /** Completion is absorbing: whatever passes, deletion requests and finalizer edits follow, a completed plan stays
      completed with the very lists and suffix it has; before its deletion no pass changes anything at all. */
  lemma {:induction false} CompletionIsAbsorbing(getName: Namer, spec: seq<SpecVM>, states: seq<StoredPlan>, events: seq<PlanEvent>, i: nat, j: nat)
    requires |states| == |events| + 1 && i <= j < |states|
    requires forall k :: 0 <= k < |events| ==> PlanStep(getName, spec, states[k], events[k], states[k + 1])
    requires ShowsCompleted(spec, states[i].lists)
    ensures ShowsCompleted(spec, states[j].lists) && states[j].lists == states[i].lists && states[j].suffix == states[i].suffix
    ensures j < |events| && events[j].Pass? && !states[j].deleting ==> states[j + 1] == states[j]
    decreases j
  {
    if i < j {
      CompletionIsAbsorbing(getName, spec, states, events, i, j - 1);
      assert PlanStep(getName, spec, states[j - 1], events[j - 1], states[j]);
    }
    if j < |events| {
      assert PlanStep(getName, spec, states[j], events[j], states[j + 1]);
    }
  }

  // ----- What a pass stores -----

  /** What a pass over the plan stores. While the plan is being deleted, or once it shows completed, or when no migrations
      can be listed, lists and suffix stay; otherwise, if the writes go through, the suffix is the one there was or the
      fresh one, and the lists are those validated with it, or those there were if KubeVirt cannot migrate, with the VMs
      the deciding migration has completed moved either way. */
  lemma PassStoresExactly(getName: Namer, spec: seq<SpecVM>, p: StoredPlan, pass: PlanPass)
    ensures
      var p' := Stored(getName, spec, p, pass);
      if p.deleting || ShowsCompleted(spec, p.lists) || pass.last.Err? || !pass.statusOk || (!pass.metaOk && PLAN_FINALIZER !in p.finalizers) then
        p'.lists == p.lists && p'.suffix == p.suffix
      else
        var suffix := if p.suffix.Some? then p.suffix else Some(pass.freshSuffix);
        var lists := if pass.kubevirt then Validated(getName, suffix, pass.f, p.lists, spec).0 else p.lists;
        && p'.suffix == suffix && p'.deleting == p.deleting
        && p'.lists.failed == lists.failed && p'.lists.invalid == lists.invalid
        && (pass.last.value.None? ==> p'.lists == lists)
        && (pass.last.value.Some? ==>
              var done := pass.last.value.value;
              && (forall e :: e in p'.lists.ready <==> e in lists.ready && e.name !in done)
              && (forall e :: e in p'.lists.inProgress <==> e in lists.inProgress && e.name !in done)
              && (forall e :: e in p'.lists.completed <==> e in lists.completed || ((e in lists.ready || e in lists.inProgress) && e.name in done)))
  {
    var suffix := if p.suffix.Some? then p.suffix else Some(pass.freshSuffix);
    var lists := if pass.kubevirt then Validated(getName, suffix, pass.f, p.lists, spec).0 else p.lists;
    if pass.last.Ok? && pass.last.value.Some? {
      MoveConserves(lists, pass.last.value.value);
    }
  }

  // ----- The plan's finalizer -----

  /** The finalizer goes only from a plan being deleted none of whose migrations is active, by a metadata write; and any
      pass over an unfinished plan that is not being deleted, whose metadata write goes through, leaves it on. */
  lemma FinalizerExactly(getName: Namer, spec: seq<SpecVM>, p: StoredPlan, pass: PlanPass)
    ensures
      var p' := Stored(getName, spec, p, pass);
      && (PLAN_FINALIZER in p.finalizers && PLAN_FINALIZER !in p'.finalizers ==> p.deleting && pass.active == Ok(false) && pass.metaOk)
      && (p.deleting && pass.active == Ok(false) && pass.metaOk && Distinct(p.finalizers) ==> PLAN_FINALIZER !in p'.finalizers)
      && (p.deleting && pass.active != Ok(false) ==> p' == p)
      && (!p.deleting && !ShowsCompleted(spec, p.lists) && pass.last.Ok? && pass.metaOk ==> PLAN_FINALIZER in p'.finalizers)
  {
  }

  // ----- Multi-namespace plans -----

  datatype NamespaceSpec = NamespaceSpec(name: string, plan: Option<seq<SpecVM>>)

  datatype NamespaceStatus = NamespaceStatus(name: string, status: Option<Lists>)

  /** The last status recorded for a namespace, entries without a status ignored. */
  function StatusFor(statuses: seq<NamespaceStatus>, name: string): Option<Lists> {
    if statuses == [] then None
    else
      var last := statuses[|statuses| - 1];
      if last.name == name && last.status.Some? then last.status else StatusFor(statuses[..|statuses| - 1], name)
  }

  /** It is that of the last entry of that name that has one. */
  lemma {:induction false} StatusForLast(statuses: seq<NamespaceStatus>, name: string) returns (k: int)
    ensures StatusFor(statuses, name).Some? ==>
      && 0 <= k < |statuses| && statuses[k].name == name && statuses[k].status == StatusFor(statuses, name)
      && forall j :: k < j < |statuses| ==> statuses[j].name != name || statuses[j].status.None?
    ensures StatusFor(statuses, name).None? ==> forall j :: 0 <= j < |statuses| ==> statuses[j].name != name || statuses[j].status.None?
  {
    k := |statuses| - 1;
    if statuses != [] && !(statuses[k].name == name && statuses[k].status.Some?) {
      k := StatusForLast(statuses[..k], name);
    }
  }

  /** namespacePlanStatusCompleted */
  predicate NamespaceCompleted(ns: NamespaceSpec, status: Option<Lists>) {
    ns.plan.Some? && status.Some? && ShowsCompleted(ns.plan.value, status.value)
  }

  method MultiPlanCompletedByStatus(spec: seq<NamespaceSpec>, statuses: seq<NamespaceStatus>) returns (r: bool)
    ensures r <==> spec != [] && forall i :: 0 <= i < |spec| ==> NamespaceCompleted(spec[i], StatusFor(statuses, spec[i].name))
  {
    if |spec| == 0 {
      return false;
    }
    var byNamespace: map<string, Lists> := map[];
    for i := 0 to |statuses|
      invariant forall n :: n in byNamespace <==> StatusFor(statuses[..i], n).Some?
      invariant forall n :: n in byNamespace ==> StatusFor(statuses[..i], n) == Some(byNamespace[n])
    {
      assert statuses[..i + 1][..i] == statuses[..i];
      if statuses[i].status.Some? {
        byNamespace := byNamespace[statuses[i].name := statuses[i].status.value];
      }
    }
    assert statuses[..|statuses|] == statuses;
    for i := 0 to |spec|
      invariant forall k :: 0 <= k < i ==> NamespaceCompleted(spec[k], StatusFor(statuses, spec[k].name))
    {
      if spec[i].plan.None? || spec[i].name !in byNamespace {
        assert !NamespaceCompleted(spec[i], StatusFor(statuses, spec[i].name));
        return false;
      }
      var shows := PlanStatusShowsCompleted(spec[i].plan.value, Some(byNamespace[spec[i].name]));
      if !shows {
        assert !NamespaceCompleted(spec[i], StatusFor(statuses, spec[i].name));
        return false;
      }
    }
    return true;
  }

  /** Reading the child plan of a namespace: Ok(None) when it does not exist. */
  type ChildPlans = map<string, Result<Option<Lists>>>

  function ChildPlan(children: ChildPlans, name: string): Result<Option<Lists>> {
    if name in children then children[name] else Ok(None)
  }

  /** Completed as a whole if and only if both the recorded status and the child plan of every namespace show it. */
  method IsMultiPlanCompleted(spec: seq<NamespaceSpec>, statuses: seq<NamespaceStatus>, children: ChildPlans) returns (r: Result<bool>)
    ensures r == Ok(true) <==>
      && spec != []
      && forall i :: 0 <= i < |spec| ==>
           && NamespaceCompleted(spec[i], StatusFor(statuses, spec[i].name))
           && ChildPlan(children, spec[i].name).Ok?
           && NamespaceCompleted(spec[i], ChildPlan(children, spec[i].name).value)
    ensures r.Err? ==> exists i :: 0 <= i < |spec| && ChildPlan(children, spec[i].name).Err?
  {
    var recorded := MultiPlanCompletedByStatus(spec, statuses);
    if !recorded {
      return Ok(false);
    }
    for i := 0 to |spec|
      invariant forall k :: 0 <= k < i ==> ChildPlan(children, spec[k].name).Ok? && NamespaceCompleted(spec[k], ChildPlan(children, spec[k].name).value)
    {
      var child := ChildPlan(children, spec[i].name);
      if child.Err? {
        return Err;
      }
      if child.value.None? {
        return Ok(false);
      }
      assert NamespaceCompleted(spec[i], StatusFor(statuses, spec[i].name));
      var shows := PlanStatusShowsCompleted(spec[i].plan.value, child.value);
      if !shows {
        return Ok(false);
      }
    }
    return Ok(true);
  }

  /** The exactness lifts: in every namespace, of a spec with distinct VM names, the child plan's completed list is a
      permutation of the namespace's VMs and nothing else is listed. */
  lemma CompletedNamespaceIsExact(ns: NamespaceSpec, status: Option<Lists>)
    requires ns.plan.Some? && ns.plan.value != [] && Distinct(SpecNames(ns.plan.value)) && "" !in SpecNames(ns.plan.value)
    ensures NamespaceCompleted(ns, status) <==>
      status.Some? && Idle(status.value) && multiset(Names(status.value.completed)) == multiset(SpecNames(ns.plan.value))
  {
    if status.Some? {
      CompletionIsPermutation(Names(status.value.completed), SpecNames(ns.plan.value));
    }
  }
}
