/** After an error-free reconcile the plan's lists partition its VMs, and completed VMs are moved, not copied. */
module PlanPartition {
  import opened Basics
  import opened Objects
  import opened PlanNaming
  import opened PlanLists

  function Names(es: seq<PlanVM>): seq<string> {
    seq(|es|, i requires 0 <= i < |es| => es[i].name)
  }

  function SpecNames(spec: seq<SpecVM>): seq<string> {
    seq(|spec|, i requires 0 <= i < |spec| => spec[i].name)
  }

  function AllEntries(lists: Lists): seq<PlanVM> {
    lists.ready + lists.inProgress + lists.failed + lists.completed + lists.invalid
  }

  lemma NamesConcat(a: seq<PlanVM>, b: seq<PlanVM>)
    ensures Names(a + b) == Names(a) + Names(b)
    ensures multiset(Names(a + b)) == multiset(Names(a)) + multiset(Names(b))
  {
    assert Names(a + b) == Names(a) + Names(b);
  }

  lemma AllNames(lists: Lists)
    ensures multiset(Names(AllEntries(lists))) ==
      multiset(Names(lists.ready)) + multiset(Names(lists.inProgress)) + multiset(Names(lists.failed)) + multiset(Names(lists.completed)) + multiset(Names(lists.invalid))
  {
    NamesConcat(lists.ready, lists.inProgress);
    NamesConcat(lists.ready + lists.inProgress, lists.failed);
    NamesConcat(lists.ready + lists.inProgress + lists.failed, lists.completed);
    NamesConcat(lists.ready + lists.inProgress + lists.failed + lists.completed, lists.invalid);
  }

  /** Two entries that differ at most in destination storage classes. */
  ghost predicate SameRoutes(e: PlanVM, e': PlanVM) {
    && e'.name == e.name && e'.sources == e.sources && |e'.targets| == |e.targets|
    && forall i :: 0 <= i < |e.targets| ==> e'.targets[i].volumeName == e.targets[i].volumeName && e'.targets[i].destination == e.targets[i].destination
  }

  // ----- Names of computed entries -----

  lemma {:induction false} ComputeFromName(getName: Namer, suffix: Option<string>, f: Facts, vm: VM, spec: SpecVM, i: nat, acc: PlanVM)
    requires i <= |spec.targets| && |acc.targets| == |spec.targets|
    ensures
      var r := ComputeFrom(getName, suffix, f, vm, spec, i, acc);
      r.Ok? && r.value.Some? ==> r.value.value.name == acc.name
    decreases |spec.targets| - i
  {
    if i < |spec.targets| {
      var t := spec.targets[i];
      var c := SourceClaim(f, vm, t.volumeName);
      if c.Ok? && c.value.Some? {
        var n := TargetPVCName(getName, t.destination, c.value.value, suffix);
        if n.Ok? {
          ComputeFromName(getName, suffix, f, vm, spec, i + 1,
            acc.(sources := acc.sources + [SourcePVC(t.volumeName, c.value.value, f.namespace)],
                 targets := acc.targets[i := acc.targets[i].(destination := Some(n.value))]));
        }
      }
    }
  }

  lemma {:induction false} LastByNameAt(entries: seq<PlanVM>, name: string)
    ensures LastByName(entries, name).Some? ==> LastByName(entries, name).value in entries && LastByName(entries, name).value.name == name
    ensures LastByName(entries, name).None? ==> forall e :: e in entries ==> e.name != name
  {
    if entries != [] {
      LastByNameAt(entries[..|entries| - 1], name);
    }
  }

  lemma EntryForName(getName: Namer, suffix: Option<string>, f: Facts, lists: Lists, vm: SpecVM)
    ensures
      var r := EntryFor(getName, suffix, f, lists, vm);
      r.Ok? && r.value.Some? ==> r.value.value.name == vm.name
  {
    LastByNameAt(AllEntries(lists), vm.name);
    if vm.name in f.vms {
      ComputeFromName(getName, suffix, f, f.vms[vm.name], vm, 0, PlanVM(vm.name, vm.targets, []));
    }
  }

  /** The loop records at most one entry per spec VM, and only what EntryFor gives for it. */
  lemma {:induction false} ListLoopEntries(getName: Namer, suffix: Option<string>, f: Facts, lists: Lists, rest: seq<SpecVM>, acc: seq<PlanVM>)
    ensures
      var (entries, ok) := ListLoop(getName, suffix, f, lists, rest, acc);
      && multiset(Names(entries)) <= multiset(Names(acc)) + multiset(SpecNames(rest))
      && forall e :: e in entries ==> e in acc || exists vm :: vm in rest && EntryFor(getName, suffix, f, lists, vm) == Ok(Some(e))
    decreases rest
  {
    if rest != [] {
      var vm := rest[0];
      EntryForName(getName, suffix, f, lists, vm);
      assert SpecNames(rest) == [vm.name] + SpecNames(rest[1..]);
      match EntryFor(getName, suffix, f, lists, vm) {
        case Err =>
        case Ok(None) =>
          ListLoopEntries(getName, suffix, f, lists, rest[1..], acc);
        case Ok(Some(e)) =>
          NamesConcat(acc, [e]);
          assert Names([e]) == [vm.name];
          ListLoopEntries(getName, suffix, f, lists, rest[1..], acc + [e]);
      }
    }
  }

  // ----- validatePVCs splits -----

  lemma {:induction false} CheckTargetsKeepsRoutes(f: Facts, e: PlanVM, i: nat)
    requires i <= |e.targets|
    ensures SameRoutes(e, CheckTargets(f, e, i).0)
    decreases |e.targets| - i
  {
    if i < |e.targets| {
      CheckTargetsKeepsRoutes(f, e, i + 1);
      if f.defaultClass.Ok? && f.defaultClass.value.Some? {
        var e1 := e.(targets := e.targets[i := e.targets[i].(storageClass := Some(f.defaultClass.value.value))]);
        CheckTargetsKeepsRoutes(f, e1, i + 1);
      }
    }
  }

  lemma {:induction false} SplitReadyPartitions(f: Facts, rest: seq<PlanVM>, ready: seq<PlanVM>, invalid: seq<PlanVM>, seen: seq<PlanVM>)
    requires SplitReady(f, rest, ready, invalid, seen).ok
    ensures
      var Split(_, ready', invalid', _) := SplitReady(f, rest, ready, invalid, seen);
      && multiset(Names(ready')) + multiset(Names(invalid')) == multiset(Names(ready)) + multiset(Names(invalid)) + multiset(Names(rest))
      && (forall e :: e in ready' ==> e in ready || exists e0 :: e0 in rest && SameRoutes(e0, e))
      && (forall e :: e in invalid' ==> e in invalid || exists e0 :: e0 in rest && SameRoutes(e0, e))
    decreases rest
  {
    if rest == [] {
      assert Names(rest) == [];
    } else {
      CheckTargetsKeepsRoutes(f, rest[0], 0);
      var (e, verdict) := CheckTargets(f, rest[0], 0);
      assert Names(rest) == [e.name] + Names(rest[1..]);
      assert Names([e]) == [e.name];
      if verdict == Issue {
        NamesConcat(invalid, [e]);
        SplitReadyPartitions(f, rest[1..], ready, invalid + [e], seen + [e]);
      } else {
        NamesConcat(ready, [e]);
        SplitReadyPartitions(f, rest[1..], ready + [e], invalid, seen + [e]);
      }
    }
  }

  /** Failing or not, checking edits the ready list only in its storage classes. */
  lemma {:induction false} ChecksKeepRoutes(f: Facts, rest: seq<PlanVM>, ready: seq<PlanVM>, invalid: seq<PlanVM>, seen: seq<PlanVM>, k: nat)
    requires k < |rest|
    ensures
      var seen' := SplitReady(f, rest, ready, invalid, seen).seen;
      |seen'| == |seen| + |rest| && seen'[..|seen|] == seen && SameRoutes(rest[k], seen'[|seen| + k])
    decreases rest
  {
    CheckTargetsKeepsRoutes(f, rest[0], 0);
    var (e, verdict) := CheckTargets(f, rest[0], 0);
    if verdict != Broken && |rest| > 1 {
      var ready' := if verdict == Fine then ready + [e] else ready;
      var invalid' := if verdict == Issue then invalid + [e] else invalid;
      ChecksKeepRoutes(f, rest[1..], ready', invalid', seen + [e], if k == 0 then 0 else k - 1);
      var seen' := SplitReady(f, rest[1..], ready', invalid', seen + [e]).seen;
      assert seen'[..|seen|] == seen'[..|seen + [e]|][..|seen|] == seen;
      assert seen'[|seen|] == seen'[..|seen + [e]|][|seen|] == e;
    }
  }

  // ----- Moving completed VMs -----

  lemma {:induction false} SplitByNames(es: seq<PlanVM>, names: seq<string>)
    ensures multiset(Without(es, names)) + multiset(Within(es, names)) == multiset(es)
    ensures forall e :: e in Within(es, names) <==> e in es && e.name in names
    ensures forall e :: e in Without(es, names) <==> e in es && e.name !in names
  {
    if es != [] {
      SplitByNames(es[1..], names);
      assert es == [es[0]] + es[1..];
    }
  }

  /** Moving conserves entries, sources and all: nothing is dropped or doubled, and exactly the VMs the deciding
      migration completed leave Ready and InProgress for Completed. */
  lemma MoveConserves(lists: Lists, done: seq<string>)
    ensures
      var m := Moved(lists, done);
      && multiset(m.ready) + multiset(m.inProgress) + multiset(m.completed) == multiset(lists.ready) + multiset(lists.inProgress) + multiset(lists.completed)
      && m.failed == lists.failed && m.invalid == lists.invalid
      && (forall e :: e in m.completed <==> e in lists.completed || ((e in lists.ready || e in lists.inProgress) && e.name in done))
      && (forall e :: e in m.ready <==> e in lists.ready && e.name !in done)
      && (forall e :: e in m.inProgress <==> e in lists.inProgress && e.name !in done)
  {
    SplitByNames(lists.ready, done);
    SplitByNames(lists.inProgress, done);
  }

  lemma {:induction false} SplitKeepsNames(es: seq<PlanVM>, names: seq<string>)
    ensures multiset(Names(Without(es, names))) + multiset(Names(Within(es, names))) == multiset(Names(es))
  {
    if es != [] {
      SplitKeepsNames(es[1..], names);
      var head := [es[0]];
      assert es == head + es[1..];
      NamesConcat(head, es[1..]);
      if es[0].name in names {
        assert Within(es, names) == head + Within(es[1..], names);
        assert Without(es, names) == Without(es[1..], names);
        NamesConcat(head, Within(es[1..], names));
      } else {
        assert Without(es, names) == head + Without(es[1..], names);
        assert Within(es, names) == Within(es[1..], names);
        NamesConcat(head, Without(es[1..], names));
      }
    }
  }

  lemma InAllEntries(lists: Lists)
    ensures forall e :: e in AllEntries(lists) <==> e in lists.ready || e in lists.inProgress || e in lists.failed || e in lists.completed || e in lists.invalid
  {
  }

  lemma MoveKeepsNames(lists: Lists, done: seq<string>)
    ensures multiset(Names(AllEntries(Moved(lists, done)))) == multiset(Names(AllEntries(lists)))
    ensures forall e :: e in AllEntries(Moved(lists, done)) <==> e in AllEntries(lists)
  {
    var m := Moved(lists, done);
    AllNames(lists);
    AllNames(m);
    SplitKeepsNames(lists.ready, done);
    SplitKeepsNames(lists.inProgress, done);
    NamesConcat(lists.completed, Within(lists.ready, done));
    NamesConcat(lists.completed + Within(lists.ready, done), Within(lists.inProgress, done));
    MoveConserves(lists, done);
    InAllEntries(lists);
    InAllEntries(m);
  }

  // ----- The partition -----

  /** The entry descends from what EntryFor gives for some spec VM. */
  ghost predicate Descends(getName: Namer, suffix: Option<string>, f: Facts, lists: Lists, spec: seq<SpecVM>, e': PlanVM) {
    exists vm, e :: vm in spec && EntryFor(getName, suffix, f, lists, vm) == Ok(Some(e)) && SameRoutes(e, e')
  }

  lemma SplitEntries(f: Facts, entries: seq<PlanVM>, lists': Lists)
    requires SplitReady(f, entries, [], [], []).ok
    requires SplitReady(f, entries, [], [], []).ready == lists'.ready && SplitReady(f, entries, [], [], []).invalid == lists'.invalid
    requires lists'.inProgress == [] && lists'.failed == [] && lists'.completed == []
    ensures multiset(Names(AllEntries(lists'))) == multiset(Names(entries))
    ensures forall e' :: e' in AllEntries(lists') ==> exists e :: e in entries && SameRoutes(e, e')
  {
    var none: seq<PlanVM> := [];
    assert Names(none) == [];
    SplitReadyPartitions(f, entries, none, none, none);
    assert multiset(Names(lists'.ready)) + multiset(Names(lists'.invalid)) == multiset(Names(entries));
    assert lists' == Lists(lists'.ready, none, none, none, lists'.invalid);
    AllNames(lists');
    InAllEntries(lists');
  }

  lemma ValidatedEntries(getName: Namer, suffix: Option<string>, f: Facts, lists: Lists, spec: seq<SpecVM>)
    requires f.status != AllCompleted && Validated(getName, suffix, f, lists, spec).1
    ensures
      var lists' := Validated(getName, suffix, f, lists, spec).0;
      && lists'.failed == [] && lists'.completed == []
      && multiset(Names(AllEntries(lists'))) <= multiset(SpecNames(spec))
      && forall e' :: e' in AllEntries(lists') ==> Descends(getName, suffix, f, lists, spec, e')
  {
    var none: seq<PlanVM> := [];
    assert Names(none) == [];
    var entries := ListLoop(getName, suffix, f, lists, spec, none).0;
    ListLoopEntries(getName, suffix, f, lists, spec, none);
    assert multiset(Names(entries)) <= multiset(SpecNames(spec));
    var lists' := Validated(getName, suffix, f, lists, spec).0;
    if f.status == NotStarted {
      assert SplitReady(f, entries, none, none, none).ok;
      SplitEntries(f, entries, lists');
    } else {
      assert lists' == Lists(none, entries, none, none, none);
      AllNames(lists');
      InAllEntries(lists');
    }
    forall e' | e' in AllEntries(lists') ensures Descends(getName, suffix, f, lists, spec, e') {
      assert e' in entries ==> SameRoutes(e', e');
      var e :| e in entries && SameRoutes(e, e');
      var vm :| vm in spec && EntryFor(getName, suffix, f, lists, vm) == Ok(Some(e));
    }
  }

  /** What an error-free reconcile on the not-completed path records. */
  lemma ReconcileEntries(getName: Namer, suffix: Option<string>, f: Facts, lists: Lists, spec: seq<SpecVM>, last: Option<seq<string>>)
    requires f.status != AllCompleted && Reconciled(getName, suffix, f, lists, spec, last).1
    ensures
      var lists' := Reconciled(getName, suffix, f, lists, spec, last).0;
      && lists'.failed == []
      && multiset(Names(AllEntries(lists'))) <= multiset(SpecNames(spec))
      && forall e' :: e' in AllEntries(lists') ==> Descends(getName, suffix, f, lists, spec, e')
  {
    ValidatedEntries(getName, suffix, f, lists, spec);
    if last.Some? {
      MoveKeepsNames(Validated(getName, suffix, f, lists, spec).0, last.value);
    }
  }

  /** Plan lists partition the spec: no VM is listed twice, within a list or across lists, and only spec VMs are listed. */
  lemma ListsPartitionSpec(getName: Namer, suffix: Option<string>, f: Facts, lists: Lists, spec: seq<SpecVM>, last: Option<seq<string>>)
    requires f.status != AllCompleted && Reconciled(getName, suffix, f, lists, spec, last).1
    requires Distinct(SpecNames(spec))
    ensures
      var lists' := Reconciled(getName, suffix, f, lists, spec, last).0;
      && lists'.failed == []
      && Distinct(Names(lists'.ready + lists'.inProgress + lists'.failed + lists'.completed + lists'.invalid))
      && forall e :: e in AllEntries(lists') ==> e.name in SpecNames(spec)
  {
    var lists' := Reconciled(getName, suffix, f, lists, spec, last).0;
    ReconcileEntries(getName, suffix, f, lists, spec, last);
    var all := AllEntries(lists');
    forall x ensures multiset(Names(all))[x] <= 1 {
      DistinctMultiset(SpecNames(spec), x);
    }
    MultisetGivesDistinct(Names(all));
    forall e | e in all ensures e.name in SpecNames(spec) {
      var k :| 0 <= k < |all| && all[k] == e;
      assert Names(all)[k] == e.name;
      assert e.name in multiset(Names(all));
    }
  }

  /** A failing reconcile keeps only what it had rebuilt: if the VM at index k fails its check, every entry that
      survives belongs to one of the VMs before it, whatever was recorded for the others. */
  lemma {:induction false} FailureForgetsTheRest(getName: Namer, suffix: Option<string>, f: Facts, lists: Lists, spec: seq<SpecVM>, k: nat, acc: seq<PlanVM>)
    requires k < |spec| && EntryFor(getName, suffix, f, lists, spec[k]).Err?
    ensures
      var (entries, ok) := ListLoop(getName, suffix, f, lists, spec, acc);
      && !ok
      && forall e :: e in entries ==> e in acc || exists j :: 0 <= j < k && e.name == spec[j].name
    decreases k
  {
    EntryForName(getName, suffix, f, lists, spec[0]);
    if k > 0 {
      match EntryFor(getName, suffix, f, lists, spec[0]) {
        case Err =>
        case Ok(None) =>
          FailureForgetsTheRest(getName, suffix, f, lists, spec[1..], k - 1, acc);
          ShiftIndex(ListLoop(getName, suffix, f, lists, spec[1..], acc).0, acc, spec, k);
        case Ok(Some(e)) =>
          FailureForgetsTheRest(getName, suffix, f, lists, spec[1..], k - 1, acc + [e]);
          ShiftIndex(ListLoop(getName, suffix, f, lists, spec[1..], acc + [e]).0, acc + [e], spec, k);
      }
    }
  }

  lemma ShiftIndex(entries: seq<PlanVM>, acc: seq<PlanVM>, spec: seq<SpecVM>, k: nat)
    requires 0 < k < |spec|
    requires forall e :: e in entries ==> e in acc || exists j :: 0 <= j < k - 1 && e.name == spec[1..][j].name
    ensures forall e :: e in entries ==> e in acc || exists j :: 0 <= j < k && e.name == spec[j].name
  {
    forall e | e in entries && e !in acc ensures exists j :: 0 <= j < k && e.name == spec[j].name {
      var j :| 0 <= j < k - 1 && e.name == spec[1..][j].name;
      assert e.name == spec[j + 1].name;
    }
  }

  // ----- Which migration decides -----

  /** compareStorageMigrations */
  function Compare(a: MigrationRef, b: MigrationRef): int {
    if a.phase != b.phase && a.phase == Completed then -1
    else if a.phase != b.phase && b.phase == Completed then 1
    else if a.created < b.created then -1
    else if a.created > b.created then 1
    else 0
  }

  /** The comparator is a total preorder, so sorting with it is meaningful. */
  lemma CompareIsTotalPreorder(a: MigrationRef, b: MigrationRef, c: MigrationRef)
    ensures Compare(a, a) == 0 && Compare(a, b) == -Compare(b, a)
    ensures Compare(a, b) <= 0 && Compare(b, c) <= 0 ==> Compare(a, c) <= 0
  {
  }

  ghost predicate SortedByCompare(ms: seq<MigrationRef>) {
    forall i, j :: 0 <= i < j < |ms| ==> Compare(ms[i], ms[j]) <= 0
  }

  /** Whatever order sorting leaves ties in, the last migration is the newest one not Completed, or, when all are
      Completed, the newest of all. */
  lemma LastIsNewest(ms: seq<MigrationRef>, sorted: seq<MigrationRef>)
    requires ms != [] && multiset(sorted) == multiset(ms) && SortedByCompare(sorted)
    ensures |sorted| == |ms|
    ensures
      var last := sorted[|sorted| - 1];
      && last in ms
      && (last.phase == Completed <==> forall m :: m in ms ==> m.phase == Completed)
      && (forall m :: m in ms && (m.phase == Completed <==> last.phase == Completed) ==> m.created <= last.created)
  {
    assert |sorted| == |multiset(sorted)| == |ms|;
    var last := sorted[|sorted| - 1];
    assert last in multiset(sorted);
    forall m | m in ms ensures Compare(m, last) <= 0 {
      assert m in multiset(ms);
      var k :| 0 <= k < |sorted| && sorted[k] == m;
    }
  }
}
