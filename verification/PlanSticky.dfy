/** Recorded sources and destinations never change while reconciles see the VM swap between them. */
module PlanSticky {
  import opened Basics
  import opened Objects
  import opened VolumeRewrite
  import opened PlanNaming
  import opened PlanLists
  import opened PlanPartition

  /** An entry recorded for a spec VM: index-aligned with the spec, and every destination is the spec's own name or
      the name generated from the recorded source. */
  ghost predicate Recorded(getName: Namer, suffix: Option<string>, spec: SpecVM, e: PlanVM) {
    && e.name == spec.name && e.sources != [] && Aligned(e) && |e.targets| == |spec.targets|
    && forall i :: 0 <= i < |spec.targets| ==>
         && e.targets[i].volumeName == spec.targets[i].volumeName
         && TargetPVCName(getName, spec.targets[i].destination, e.sources[i].name, suffix) == Ok(e.targets[i].destination.value)
  }

  ghost predicate DistinctVolumes(spec: SpecVM) {
    forall i, j :: 0 <= i < j < |spec.targets| ==> spec.targets[i].volumeName != spec.targets[j].volumeName
  }

  /** What the environment may do to the VM: move its volumes between source and destination (or lose a claim), and
      record such moves; it does not bring in other claims. */
  ghost predicate SwapsOnly(vm: VM, rs: seq<Route>) {
    && (forall m :: m in vm.migrated ==> m.destination.Some? && m.source.Some?)
    && forall i :: 0 <= i < |rs| ==>
         && (forall k :: 0 <= k < |vm.volumes| && vm.volumes[k].name == rs[i].volume ==> ClaimName(vm.volumes[k]) in {"", rs[i].source, rs[i].destination})
         && forall m :: m in vm.migrated && m.destination.value in {rs[i].source, rs[i].destination} ==> m.source.value in {"", rs[i].source, rs[i].destination}
  }

  lemma {:induction false} RecalledOnRoute(migrated: seq<MigratedVolume>, claim: string, r: Route)
    requires forall m :: m in migrated ==> m.destination.Some? && m.source.Some?
    requires forall m :: m in migrated && m.destination.value in {r.source, r.destination} ==> m.source.value in {"", r.source, r.destination}
    requires claim in {r.source, r.destination}
    ensures Recalled(migrated, claim).Ok? && Recalled(migrated, claim).value in {"", r.source, r.destination}
  {
    if migrated != [] {
      assert migrated[0] in migrated;
      RecalledOnRoute(migrated[1..], claim, r);
    }
  }

  /** The claim found for a volume is that of a volume of that name. */
  lemma {:induction false} FirstClaimAt(volumes: seq<Volume>, volume: string)
    ensures
      var c := FirstClaim(volumes, volume);
      c != "" ==> exists k :: 0 <= k < |volumes| && volumes[k].name == volume && !volumes[k].source.OtherSource? && ClaimName(volumes[k]) == c
  {
    if volumes != [] && !(volumes[0].name == volume && !volumes[0].source.OtherSource?) {
      FirstClaimAt(volumes[1..], volume);
      if FirstClaim(volumes, volume) != "" {
        var rest := volumes[1..];
        var k :| 0 <= k < |rest| && rest[k].name == volume && !rest[k].source.OtherSource? && ClaimName(rest[k]) == FirstClaim(rest, volume);
        assert volumes[k + 1] == rest[k];
      }
    }
  }

  lemma SourceClaimOnRoute(f: Facts, vm: VM, rs: seq<Route>, i: nat)
    requires SwapsOnly(vm, rs) && i < |rs|
    ensures
      var c := SourceClaim(f, vm, rs[i].volume);
      c.Ok? && c.value.Some? ==> c.value.value in {rs[i].source, rs[i].destination}
  {
    var claim := FirstClaim(vm.volumes, rs[i].volume);
    FirstClaimAt(vm.volumes, rs[i].volume);
    if claim != "" {
      RecalledOnRoute(vm.migrated, claim, rs[i]);
    }
  }

  /** Whichever of the two claims the disk is on, the destination name comes out the same. */
  lemma SameDestination(getName: Namer, suffix: Option<string>, name: Option<string>, source: string, destination: string, claim: string)
    requires NamingContract(getName) && suffix.Some? && ValidSuffix(suffix.value)
    requires TargetPVCName(getName, name, source, suffix) == Ok(destination) && claim in {source, destination}
    ensures TargetPVCName(getName, name, claim, suffix) == Ok(destination)
  {
    if name.None? {
      GeneratedNameIsFixpoint(getName, source, suffix.value);
    }
  }

  /** The partly computed entry: the first i sources and destinations are on their routes. */
  ghost predicate OnRoutes(spec: SpecVM, e: PlanVM, acc: PlanVM, i: nat)
    requires Aligned(e) && |e.targets| == |spec.targets| && i <= |spec.targets|
  {
    && acc.name == spec.name && |acc.targets| == |spec.targets| && |acc.sources| == i
    && (forall k :: 0 <= k < |spec.targets| ==> acc.targets[k].volumeName == spec.targets[k].volumeName)
    && forall k :: 0 <= k < i ==>
         && acc.sources[k].volumeName == spec.targets[k].volumeName
         && acc.sources[k].name in {e.sources[k].name, e.targets[k].destination.value}
         && acc.targets[k].destination == e.targets[k].destination
  }

  lemma {:induction false} ComputeOnRoutes(getName: Namer, suffix: Option<string>, f: Facts, vm: VM, spec: SpecVM, e: PlanVM, i: nat, acc: PlanVM)
    requires NamingContract(getName) && suffix.Some? && ValidSuffix(suffix.value)
    requires Recorded(getName, suffix, spec, e) && SwapsOnly(vm, Routes(e)) && i <= |spec.targets| && OnRoutes(spec, e, acc, i)
    ensures
      var r := ComputeFrom(getName, suffix, f, vm, spec, i, acc);
      r.Ok? && r.value.Some? ==> OnRoutes(spec, e, r.value.value, |spec.targets|)
    decreases |spec.targets| - i
  {
    if i < |spec.targets| {
      var t := spec.targets[i];
      assert Routes(e)[i].volume == t.volumeName;
      SourceClaimOnRoute(f, vm, Routes(e), i);
      var c := SourceClaim(f, vm, t.volumeName);
      if c.Ok? && c.value.Some? {
        SameDestination(getName, suffix, t.destination, e.sources[i].name, e.targets[i].destination.value, c.value.value);
        ComputeOnRoutes(getName, suffix, f, vm, spec, e, i + 1,
          acc.(sources := acc.sources + [SourcePVC(t.volumeName, c.value.value, f.namespace)],
               targets := acc.targets[i := acc.targets[i].(destination := e.targets[i].destination)]));
      }
    }
  }

  lemma {:induction false} NameForAt(sources: seq<SourcePVC>, i: nat)
    requires i < |sources| && forall a, b :: 0 <= a < b < |sources| ==> sources[a].volumeName != sources[b].volumeName
    ensures NameFor(sources, sources[i].volumeName) == Some(sources[i].name)
  {
    if i < |sources| - 1 {
      NameForAt(sources[..|sources| - 1], i);
    }
  }

  /** Merging a computed entry into the recorded one keeps every recorded source and destination. */
  lemma MergeKeepsRoutes(getName: Namer, suffix: Option<string>, spec: SpecVM, e: PlanVM, computed: Option<PlanVM>)
    requires Recorded(getName, suffix, spec, e) && DistinctVolumes(spec)
    requires computed.Some? ==> OnRoutes(spec, e, computed.value, |spec.targets|)
    ensures
      var m := Merge(Some(e), computed);
      m.Some? && Recorded(getName, suffix, spec, m.value) && Routes(m.value) == Routes(e)
  {
    var m := Merge(Some(e), computed).value;
    forall i | 0 <= i < |e.sources| ensures NameFor(e.sources, e.sources[i].volumeName) == Some(e.sources[i].name) {
      NameForAt(e.sources, i);
    }
    forall i | 0 <= i < |e.sources|
      ensures i < |m.sources| && m.sources[i].name == e.sources[i].name && m.sources[i].volumeName == spec.targets[i].volumeName
    {
      if computed.Some? && m.sources != e.sources {
        assert m.sources == computed.value.sources;
        assert NameFor(e.sources, computed.value.sources[i].volumeName) == Some(computed.value.sources[i].name);
      }
    }
  }

  lemma EntryForIsSticky(getName: Namer, suffix: Option<string>, f: Facts, lists: Lists, spec: SpecVM, e: PlanVM)
    requires NamingContract(getName) && suffix.Some? && ValidSuffix(suffix.value) && DistinctVolumes(spec)
    requires Existing(lists, spec.name) == Some(e) && Recorded(getName, suffix, spec, e)
    requires spec.name in f.vms ==> SwapsOnly(f.vms[spec.name], Routes(e))
    ensures
      var r := EntryFor(getName, suffix, f, lists, spec);
      r.Ok? && r.value.Some? ==> Recorded(getName, suffix, spec, r.value.value) && Routes(r.value.value) == Routes(e)
  {
    var r := EntryFor(getName, suffix, f, lists, spec);
    if r.Ok? && r.value.Some? {
      if spec.name in f.vms {
        ComputeOnRoutes(getName, suffix, f, f.vms[spec.name], spec, e, 0, PlanVM(spec.name, spec.targets, []));
      }
      MergeKeepsRoutes(getName, suffix, spec, e, Compute(getName, suffix, f, spec).value);
    }
  }

  lemma SameRoutesTransfer(getName: Namer, suffix: Option<string>, spec: SpecVM, e: PlanVM, e': PlanVM)
    requires SameRoutes(e, e') && Recorded(getName, suffix, spec, e)
    ensures Recorded(getName, suffix, spec, e') && Routes(e') == Routes(e)
  {
    assert Routes(e') == Routes(e);
  }

  // ----- Runs of reconciles -----

  /** With no name listed twice, an entry that is listed is the existing one. */
  lemma {:induction false} ExistingIsUnique(entries: seq<PlanVM>, e: PlanVM)
    requires Distinct(Names(entries)) && e in entries
    ensures LastByName(entries, e.name) == Some(e)
  {
    var init, last := entries[..|entries| - 1], entries[|entries| - 1];
    assert entries == init + [last];
    NamesConcat(init, [last]);
    var k :| 0 <= k < |entries| && entries[k] == e;
    assert Names(entries)[k] == e.name && Names(entries)[|entries| - 1] == last.name;
    if last.name != e.name {
      assert e == init[k];
      assert Names(init) == Names(entries)[..|init|];
      ExistingIsUnique(init, e);
    }
  }

  /** One reconcile in the life of a plan: error-free, and not one that heals an empty completed list. */
  ghost predicate CleanReconcile(getName: Namer, suffix: Option<string>, f: Facts, lists: Lists, spec: seq<SpecVM>, last: Option<seq<string>>, lists': Lists) {
    && Reconciled(getName, suffix, f, lists, spec, last) == (lists', true)
    && (f.status == AllCompleted ==> lists.completed != [])
  }

  /** The VM is recorded once, with these routes. */
  ghost predicate Holds(getName: Namer, suffix: Option<string>, lists: Lists, vm: SpecVM, rs: seq<Route>) {
    && Distinct(Names(AllEntries(lists)))
    && Existing(lists, vm.name).Some?
    && Recorded(getName, suffix, vm, Existing(lists, vm.name).value)
    && Routes(Existing(lists, vm.name).value) == rs
  }

  lemma ReconcileIsSticky(getName: Namer, suffix: Option<string>, f: Facts, lists: Lists, spec: seq<SpecVM>, last: Option<seq<string>>, lists': Lists,
                          vm: SpecVM, rs: seq<Route>)
    requires NamingContract(getName) && suffix.Some? && ValidSuffix(suffix.value)
    requires Distinct(SpecNames(spec)) && vm in spec && DistinctVolumes(vm)
    requires CleanReconcile(getName, suffix, f, lists, spec, last, lists') && Holds(getName, suffix, lists, vm, rs)
    requires vm.name in f.vms ==> SwapsOnly(f.vms[vm.name], rs)
    requires Existing(lists', vm.name).Some?
    ensures Holds(getName, suffix, lists', vm, rs)
  {
    var e := Existing(lists, vm.name).value;
    LastByNameAt(AllEntries(lists), vm.name);
    LastByNameAt(AllEntries(lists'), vm.name);
    var e' := Existing(lists', vm.name).value;
    if f.status == AllCompleted {
      if last.Some? {
        MoveKeepsNames(lists, last.value);
        PermutationIsDistinct(Names(AllEntries(lists)), Names(AllEntries(lists')));
      }
      ExistingIsUnique(AllEntries(lists'), e);
    } else {
      ReconcileEntries(getName, suffix, f, lists, spec, last);
      ListsPartitionSpec(getName, suffix, f, lists, spec, last);
      assert Descends(getName, suffix, f, lists, spec, e');
      var vm2, e2 :| vm2 in spec && EntryFor(getName, suffix, f, lists, vm2) == Ok(Some(e2)) && SameRoutes(e2, e');
      EntryForName(getName, suffix, f, lists, vm2);
      SameSpecVM(spec, vm, vm2);
      EntryForIsSticky(getName, suffix, f, lists, vm, e);
      SameRoutesTransfer(getName, suffix, vm, e2, e');
    }
  }

  lemma SameSpecVM(spec: seq<SpecVM>, a: SpecVM, b: SpecVM)
    requires Distinct(SpecNames(spec)) && a in spec && b in spec && a.name == b.name
    ensures a == b
  {
    var i :| 0 <= i < |spec| && spec[i] == a;
    var j :| 0 <= j < |spec| && spec[j] == b;
    assert SpecNames(spec)[i] == SpecNames(spec)[j];
  }

  /** Recorded sources and destinations are sticky: over any sequence of error-free reconciles that keep the VM
      listed, while the environment swaps its claims or makes lookups find nothing, the recorded routes never change
      and stay index-aligned. */
  lemma {:induction false} RoutesAreSticky(getName: Namer, suffix: Option<string>, spec: seq<SpecVM>, vm: SpecVM, rs: seq<Route>,
                                           states: seq<Lists>, facts: seq<Facts>, lasts: seq<Option<seq<string>>>, i: nat)
    requires NamingContract(getName) && suffix.Some? && ValidSuffix(suffix.value)
    requires Distinct(SpecNames(spec)) && vm in spec && DistinctVolumes(vm)
    requires |states| == |facts| + 1 == |lasts| + 1 && i < |states| && Holds(getName, suffix, states[0], vm, rs)
    requires forall k :: 0 <= k < |facts| ==> CleanReconcile(getName, suffix, facts[k], states[k], spec, lasts[k], states[k + 1])
    requires forall k :: 0 <= k < |facts| && vm.name in facts[k].vms ==> SwapsOnly(facts[k].vms[vm.name], rs)
    requires forall k :: 0 <= k < |states| ==> Existing(states[k], vm.name).Some?
    ensures Holds(getName, suffix, states[i], vm, rs)
    ensures Aligned(Existing(states[i], vm.name).value) && Routes(Existing(states[i], vm.name).value) == rs
  {
    if i > 0 {
      RoutesAreSticky(getName, suffix, spec, vm, rs, states, facts, lasts, i - 1);
      ReconcileIsSticky(getName, suffix, facts[i - 1], states[i - 1], spec, lasts[i - 1], states[i], vm, rs);
    }
  }

  /** What a first recording establishes: an entry computed for a VM with no record is recorded in the above sense. */
  lemma {:induction false} FirstRecording(getName: Namer, suffix: Option<string>, f: Facts, vm: VM, spec: SpecVM, i: nat, acc: PlanVM)
    requires i <= |spec.targets| && acc.name == spec.name && |acc.targets| == |spec.targets| && |acc.sources| == i
    requires forall k :: 0 <= k < |spec.targets| ==> acc.targets[k].volumeName == spec.targets[k].volumeName
    requires forall k :: 0 <= k < i ==>
      acc.sources[k].volumeName == spec.targets[k].volumeName && acc.targets[k].destination.Some? &&
      TargetPVCName(getName, spec.targets[k].destination, acc.sources[k].name, suffix) == Ok(acc.targets[k].destination.value)
    ensures
      var r := ComputeFrom(getName, suffix, f, vm, spec, i, acc);
      r.Ok? && r.value.Some? ==> Recorded(getName, suffix, spec, r.value.value) && Merge(None, r.value) == r.value
    decreases |spec.targets| - i
  {
    if i < |spec.targets| {
      var t := spec.targets[i];
      var c := SourceClaim(f, vm, t.volumeName);
      if c.Ok? && c.value.Some? {
        var n := TargetPVCName(getName, t.destination, c.value.value, suffix);
        if n.Ok? {
          FirstRecording(getName, suffix, f, vm, spec, i + 1,
            acc.(sources := acc.sources + [SourcePVC(t.volumeName, c.value.value, f.namespace)],
                 targets := acc.targets[i := acc.targets[i].(destination := Some(n.value))]));
        }
      }
    }
  }
}
