/** Recorded routes and the suffix in the stored plan: over whole runs, with writes that fail. */
module PlanRun {
  import opened Basics
  import opened Objects
  import opened VolumeRewrite
  import opened PlanNaming
  import opened PlanLists
  import opened PlanPartition
  import opened PlanSticky
  import opened PlanCompletion

  ghost predicate IsPlanRun(getName: Namer, spec: seq<SpecVM>, states: seq<StoredPlan>, events: seq<PlanEvent>) {
    && |states| == |events| + 1
    && forall k :: 0 <= k < |events| ==> PlanStep(getName, spec, states[k], events[k], states[k + 1])
  }

  /** The pass gets to rebuilding the lists, and its status write goes through. */
  predicate StoresLists(getName: Namer, spec: seq<SpecVM>, p: StoredPlan, pass: PlanPass) {
    var d := Desired(getName, spec, p, pass);
    && !p.deleting && d.Some? && pass.statusOk && (d.value.finalizers == p.finalizers || pass.metaOk)
  }

  /** What is asked of a pass that stores lists: that validating was free of errors and healed nothing, and that the
      VM's claims, if it found the VM, were on the two ends of its routes. */
  ghost predicate CleanFor(getName: Namer, spec: seq<SpecVM>, p: StoredPlan, pass: PlanPass, vm: SpecVM, rs: seq<Route>) {
    var suffix := if p.suffix.None? then Some(pass.freshSuffix) else p.suffix;
    StoresLists(getName, spec, p, pass) && pass.kubevirt ==>
      && Reconciled(getName, suffix, pass.f, p.lists, spec, pass.last.value).1
      && (pass.f.status == AllCompleted ==> p.lists.completed != [])
      && (vm.name in pass.f.vms ==> SwapsOnly(pass.f.vms[vm.name], rs))
  }

  /** A pass that skips validation only moves entries. */
  lemma MoveHolds(getName: Namer, suffix: Option<string>, lists: Lists, done: seq<string>, vm: SpecVM, rs: seq<Route>)
    requires Holds(getName, suffix, lists, vm, rs)
    ensures Holds(getName, suffix, Moved(lists, done), vm, rs)
  {
    var e := Existing(lists, vm.name).value;
    LastByNameAt(AllEntries(lists), vm.name);
    MoveKeepsNames(lists, done);
    PermutationIsDistinct(Names(AllEntries(lists)), Names(AllEntries(Moved(lists, done))));
    ExistingIsUnique(AllEntries(Moved(lists, done)), e);
  }

  lemma PassHolds(getName: Namer, spec: seq<SpecVM>, p: StoredPlan, pass: PlanPass, vm: SpecVM, rs: seq<Route>)
    requires NamingContract(getName) && p.suffix.Some? && ValidSuffix(p.suffix.value)
    requires Distinct(SpecNames(spec)) && vm in spec && DistinctVolumes(vm)
    requires Holds(getName, p.suffix, p.lists, vm, rs) && CleanFor(getName, spec, p, pass, vm, rs)
    requires Existing(Stored(getName, spec, p, pass).lists, vm.name).Some?
    ensures Stored(getName, spec, p, pass).suffix == p.suffix && Holds(getName, p.suffix, Stored(getName, spec, p, pass).lists, vm, rs)
  {
    if StoresLists(getName, spec, p, pass) {
      if pass.kubevirt {
        ReconcileIsSticky(getName, p.suffix, pass.f, p.lists, spec, pass.last.value, Stored(getName, spec, p, pass).lists, vm, rs);
      } else if pass.last.value.Some? {
        MoveHolds(getName, p.suffix, p.lists, pass.last.value.value, vm, rs);
      }
    }
  }

  /** Recorded routes and the suffix never change in the stored plan: over every run of passes whose writes may fail
      either way, deletion and finalizer edits, in which passes that do store lists are clean and keep the VM listed. */
  lemma {:induction false} StoredRoutesAreSticky(getName: Namer, spec: seq<SpecVM>, vm: SpecVM, rs: seq<Route>,
                                                 states: seq<StoredPlan>, events: seq<PlanEvent>, i: nat)
    requires NamingContract(getName) && Distinct(SpecNames(spec)) && vm in spec && DistinctVolumes(vm)
    requires IsPlanRun(getName, spec, states, events) && i < |states|
    requires states[0].suffix.Some? && ValidSuffix(states[0].suffix.value) && Holds(getName, states[0].suffix, states[0].lists, vm, rs)
    requires forall k :: 0 <= k < |events| && events[k].Pass? ==> CleanFor(getName, spec, states[k], events[k].pass, vm, rs)
    requires forall k :: 0 <= k < |states| ==> Existing(states[k].lists, vm.name).Some?
    ensures states[i].suffix == states[0].suffix && Holds(getName, states[0].suffix, states[i].lists, vm, rs)
  {
    if i > 0 {
      StoredRoutesAreSticky(getName, spec, vm, rs, states, events, i - 1);
      assert PlanStep(getName, spec, states[i - 1], events[i - 1], states[i]);
      if events[i - 1].Pass? {
        PassHolds(getName, spec, states[i - 1], events[i - 1].pass, vm, rs);
      }
    }
  }

  // ----- How a record comes about -----

  predicate NothingListed(lists: Lists) {
    lists.ready == [] && lists.inProgress == [] && lists.failed == [] && lists.completed == [] && lists.invalid == []
  }

  /** The suffix is chosen once: in every run, whatever writes fail, it never changes after it is stored, and no VM is
      ever listed without one. */
  lemma {:induction false} SuffixIsSetOnce(getName: Namer, spec: seq<SpecVM>, states: seq<StoredPlan>, events: seq<PlanEvent>, i: nat, j: nat)
    requires IsPlanRun(getName, spec, states, events) && i <= j < |states|
    ensures states[i].suffix.Some? ==> states[j].suffix == states[i].suffix
    ensures NothingListed(states[0].lists) ==> NothingListed(states[j].lists) || states[j].suffix.Some?
    decreases j
  {
    if j > 0 {
      if i < j {
        SuffixIsSetOnce(getName, spec, states, events, i, j - 1);
      } else {
        SuffixIsSetOnce(getName, spec, states, events, i - 1, j - 1);
      }
      assert PlanStep(getName, spec, states[j - 1], events[j - 1], states[j]);
    }
  }

  /** The first time a clean pass before completion lists a VM, it stores a record in the above sense, under the
      suffix it stores with it. */
  lemma FirstStoreRecords(getName: Namer, spec: seq<SpecVM>, p: StoredPlan, pass: PlanPass, vm: SpecVM) returns (rs: seq<Route>)
    requires Distinct(SpecNames(spec)) && vm in spec && pass.kubevirt && pass.f.status != AllCompleted
    requires Existing(p.lists, vm.name).None? && CleanFor(getName, spec, p, pass, vm, [])
    requires Existing(Stored(getName, spec, p, pass).lists, vm.name).Some?
    ensures Stored(getName, spec, p, pass).suffix.Some?
    ensures Holds(getName, Stored(getName, spec, p, pass).suffix, Stored(getName, spec, p, pass).lists, vm, rs)
  {
    var p' := Stored(getName, spec, p, pass);
    assert StoresLists(getName, spec, p, pass);
    var f, last := pass.f, pass.last.value;
    LastByNameAt(AllEntries(p'.lists), vm.name);
    var e' := Existing(p'.lists, vm.name).value;
    ReconcileEntries(getName, p'.suffix, f, p.lists, spec, last);
    ListsPartitionSpec(getName, p'.suffix, f, p.lists, spec, last);
    assert Descends(getName, p'.suffix, f, p.lists, spec, e');
    var vm2, e :| vm2 in spec && EntryFor(getName, p'.suffix, f, p.lists, vm2) == Ok(Some(e)) && SameRoutes(e, e');
    EntryForName(getName, p'.suffix, f, p.lists, vm2);
    SameSpecVM(spec, vm, vm2);
    if vm.name in f.vms {
      FirstRecording(getName, p'.suffix, f, f.vms[vm.name], vm, 0, PlanVM(vm.name, vm.targets, []));
    }
    SameRoutesTransfer(getName, p'.suffix, vm, e, e');
    rs := Routes(e');
  }
}
