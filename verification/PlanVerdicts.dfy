/** Which VMs a plan reconcile lists, and which of them are ready, in terms of what it observes. */
module PlanVerdicts {
  import opened Basics
  import opened Objects
  import opened PlanNaming
  import opened PlanLists
  import opened PlanPartition

  // ----- Ready or invalid -----

  predicate NamesClass(t: TargetPVC) {
    t.storageClass.Some? && t.storageClass.value != ""
  }

  /** The target's class exists, or it names none and there is a default one; and before anything has started the
      destination is not the source. */
  predicate TargetValid(f: Facts, e: PlanVM, i: nat)
    requires i < |e.targets|
  {
    && (if NamesClass(e.targets[i]) then e.targets[i].storageClass.value in f.classes && f.classes[e.targets[i].storageClass.value] == Found
        else f.defaultClass.Ok? && f.defaultClass.value.Some? && f.defaultClass.value.value != "")
    && (f.status == NotStarted && e.targets[i].destination.Some? && i < |e.sources| ==> e.targets[i].destination.value != e.sources[i].name)
  }

  predicate EntryValid(f: Facts, e: PlanVM) {
    forall i :: 0 <= i < |e.targets| ==> TargetValid(f, e, i)
  }

  /** The entry with the default class where a target names none, from the i-th target on. */
  function Filled(f: Facts, e: PlanVM, i: nat): PlanVM {
    e.(targets := seq(|e.targets|, k requires 0 <= k < |e.targets| =>
      if k < i || NamesClass(e.targets[k]) || f.defaultClass.Err? then e.targets[k] else e.targets[k].(storageClass := f.defaultClass.value)))
  }

  lemma {:induction false} CheckTargetsExactly(f: Facts, e: PlanVM, i: nat)
    requires i <= |e.targets| && CheckTargets(f, e, i).1 != Broken
    ensures CheckTargets(f, e, i).1 == Fine <==> forall k :: i <= k < |e.targets| ==> TargetValid(f, e, k)
    ensures CheckTargets(f, e, i).1 == Fine ==> CheckTargets(f, e, i).0 == Filled(f, e, i)
    decreases |e.targets| - i
  {
    if i == |e.targets| {
      assert Filled(f, e, i).targets == e.targets;
    } else if !TargetValid(f, e, i) {
      assert CheckTargets(f, e, i).1 != Fine;
    } else if NamesClass(e.targets[i]) || (f.defaultClass.Ok? && f.defaultClass.value.Some? && f.defaultClass.value.value != "") {
      var e1 := if NamesClass(e.targets[i]) then e else e.(targets := e.targets[i := e.targets[i].(storageClass := f.defaultClass.value)]);
      forall k | i < k < |e.targets| ensures TargetValid(f, e1, k) <==> TargetValid(f, e, k) {
      }
      if !(e1.targets[i].destination.Some? && |e1.sources| <= i) && CheckName(f, e1, i) == CheckTargets(f, e1, i + 1) && CheckTargets(f, e1, i + 1).1 != Broken {
        CheckTargetsExactly(f, e1, i + 1);
        assert Filled(f, e1, i + 1).targets == Filled(f, e, i).targets;
      }
    }
  }

  /** Somewhere in the list there is an entry that came from this one. */
  ghost predicate HasLike(es: seq<PlanVM>, e: PlanVM) {
    exists k :: 0 <= k < |es| && SameRoutes(e, es[k])
  }

  ghost predicate FromValid(f: Facts, old_: seq<PlanVM>, e': PlanVM) {
    exists k :: 0 <= k < |old_| && EntryValid(f, old_[k]) && e' == Filled(f, old_[k], 0)
  }

  ghost predicate FromInvalid(f: Facts, old_: seq<PlanVM>, e': PlanVM) {
    exists k :: 0 <= k < |old_| && !EntryValid(f, old_[k]) && SameRoutes(old_[k], e')
  }

  lemma LaterFrom(f: Facts, old_: seq<PlanVM>, e': PlanVM)
    requires old_ != []
    ensures FromValid(f, old_[1..], e') ==> FromValid(f, old_, e')
    ensures FromInvalid(f, old_[1..], e') ==> FromInvalid(f, old_, e')
  {
    if FromValid(f, old_[1..], e') {
      var k :| 0 <= k < |old_[1..]| && EntryValid(f, old_[1..][k]) && e' == Filled(f, old_[1..][k], 0);
      assert old_[k + 1] == old_[1..][k];
    }
    if FromInvalid(f, old_[1..], e') {
      var k :| 0 <= k < |old_[1..]| && !EntryValid(f, old_[1..][k]) && SameRoutes(old_[1..][k], e');
      assert old_[k + 1] == old_[1..][k];
    }
  }

  lemma {:induction false} SplitGrows(f: Facts, rest: seq<PlanVM>, ready: seq<PlanVM>, invalid: seq<PlanVM>, seen: seq<PlanVM>)
    ensures
      var s := SplitReady(f, rest, ready, invalid, seen);
      |s.ready| >= |ready| && s.ready[..|ready|] == ready && |s.invalid| >= |invalid| && s.invalid[..|invalid|] == invalid
    decreases rest
  {
    if rest != [] {
      var (e, verdict) := CheckTargets(f, rest[0], 0);
      if verdict == Fine {
        SplitGrows(f, rest[1..], ready + [e], invalid, seen + [e]);
        var s := SplitReady(f, rest[1..], ready + [e], invalid, seen + [e]);
        assert s.ready[..|ready|] == s.ready[..|ready + [e]|][..|ready|];
      } else if verdict == Issue {
        SplitGrows(f, rest[1..], ready, invalid + [e], seen + [e]);
        var s := SplitReady(f, rest[1..], ready, invalid + [e], seen + [e]);
        assert s.invalid[..|invalid|] == s.invalid[..|invalid + [e]|][..|invalid|];
      }
    }
  }

  lemma {:induction false} ValidIsReady(f: Facts, rest: seq<PlanVM>, ready: seq<PlanVM>, invalid: seq<PlanVM>, seen: seq<PlanVM>, k: nat)
    requires SplitReady(f, rest, ready, invalid, seen).ok && k < |rest|
    ensures
      var s := SplitReady(f, rest, ready, invalid, seen);
      if EntryValid(f, rest[k]) then Filled(f, rest[k], 0) in s.ready else HasLike(s.invalid, rest[k])
    decreases rest
  {
    var (e, verdict) := CheckTargets(f, rest[0], 0);
    CheckTargetsExactly(f, rest[0], 0);
    CheckTargetsKeepsRoutes(f, rest[0], 0);
    var ready', invalid' := if verdict == Fine then ready + [e] else ready, if verdict == Issue then invalid + [e] else invalid;
    assert SplitReady(f, rest, ready, invalid, seen) == SplitReady(f, rest[1..], ready', invalid', seen + [e]);
    if k > 0 {
      ValidIsReady(f, rest[1..], ready', invalid', seen + [e], k - 1);
    } else {
      SplitGrows(f, rest[1..], ready', invalid', seen + [e]);
      var s := SplitReady(f, rest[1..], ready', invalid', seen + [e]);
      if verdict == Fine {
        assert s.ready[|ready|] == s.ready[..|ready'|][|ready|] == e;
      } else {
        assert s.invalid[|invalid|] == s.invalid[..|invalid'|][|invalid|] == e;
      }
    }
  }

  lemma {:induction false} ReadyIsValid(f: Facts, rest: seq<PlanVM>, ready: seq<PlanVM>, invalid: seq<PlanVM>, seen: seq<PlanVM>, e': PlanVM)
    requires SplitReady(f, rest, ready, invalid, seen).ok
    ensures
      var s := SplitReady(f, rest, ready, invalid, seen);
      && (e' in s.ready ==> e' in ready || FromValid(f, rest, e'))
      && (e' in s.invalid ==> e' in invalid || FromInvalid(f, rest, e'))
    decreases rest
  {
    if rest != [] {
      var (e, verdict) := CheckTargets(f, rest[0], 0);
      CheckTargetsExactly(f, rest[0], 0);
      CheckTargetsKeepsRoutes(f, rest[0], 0);
      var ready', invalid' := if verdict == Fine then ready + [e] else ready, if verdict == Issue then invalid + [e] else invalid;
      assert SplitReady(f, rest, ready, invalid, seen) == SplitReady(f, rest[1..], ready', invalid', seen + [e]);
      ReadyIsValid(f, rest[1..], ready', invalid', seen + [e], e');
      LaterFrom(f, rest, e');
      if verdict == Fine && e' == e {
        assert FromValid(f, rest, e');
      }
      if verdict == Issue && e' == e {
        assert FromInvalid(f, rest, e');
      }
    }
  }

  /** Who is ready, exactly: when the checks get through, an entry is ready if and only if for every target the class it
      names exists, or it names none and a default class exists, and, before anything has started, its destination is
      not its source. A ready entry has the default class wherever it named none; any other is invalid, its routes kept. */
  lemma ReadyExactly(f: Facts, old_: seq<PlanVM>, k: nat, e': PlanVM)
    requires SplitReady(f, old_, [], [], []).ok && k < |old_|
    ensures
      var s := SplitReady(f, old_, [], [], []);
      && (if EntryValid(f, old_[k]) then Filled(f, old_[k], 0) in s.ready else HasLike(s.invalid, old_[k]))
      && (e' in s.ready ==> FromValid(f, old_, e'))
      && (e' in s.invalid ==> FromInvalid(f, old_, e'))
  {
    ValidIsReady(f, old_, [], [], [], k);
    ReadyIsValid(f, old_, [], [], [], e');
  }

  // ----- What recording takes from where -----

  /** Merging, exactly: what is computed now gives the targets; recorded sources stay unless what is computed now agrees
      with them volume by volume; only a VM for which nothing is computed and nothing was recorded is dropped. */
  lemma MergeExactly(existing: Option<PlanVM>, computed: Option<PlanVM>)
    ensures
      var m := Merge(existing, computed);
      && (m.None? <==> computed.None? && (existing.None? || existing.value.sources == []))
      && (existing.None? ==> m == computed)
      && (m.Some? && computed.None? ==> m == existing)
      && (computed.Some? ==> m.value.name == computed.value.name && m.value.targets == computed.value.targets)
      && (m.Some? && existing.Some? && existing.value.sources != [] && m.value.sources != existing.value.sources ==>
            && computed.Some? && m.value.sources == computed.value.sources && |m.value.sources| == |existing.value.sources|
            && forall i :: 0 <= i < |m.value.sources| ==> NameFor(existing.value.sources, m.value.sources[i].volumeName) == Some(m.value.sources[i].name))
  {
  }

  // ----- Who is listed -----

  /** The VM passed its check and either has sources now or had some recorded. */
  ghost predicate ToList(getName: Namer, suffix: Option<string>, f: Facts, lists: Lists, vm: SpecVM) {
    && vm.name in f.checks && f.checks[vm.name] == Possible
    && var c, x := Compute(getName, suffix, f, vm), Existing(lists, vm.name);
       (c.Ok? && c.value.Some?) || (c.Ok? && x.Some? && x.value.sources != [])
  }

  ghost predicate ListedIn(es: seq<PlanVM>, name: string) {
    exists k :: 0 <= k < |es| && es[k].name == name
  }

  lemma {:induction false} ListLoopLists(getName: Namer, suffix: Option<string>, f: Facts, lists: Lists, rest: seq<SpecVM>, acc: seq<PlanVM>, name: string)
    requires ListLoop(getName, suffix, f, lists, rest, acc).1
    ensures ListedIn(ListLoop(getName, suffix, f, lists, rest, acc).0, name) <==>
      ListedIn(acc, name) || exists k :: 0 <= k < |rest| && rest[k].name == name && ToList(getName, suffix, f, lists, rest[k])
    decreases rest
  {
    if rest != [] {
      var r := EntryFor(getName, suffix, f, lists, rest[0]);
      EntryForName(getName, suffix, f, lists, rest[0]);
      assert r.value.Some? <==> ToList(getName, suffix, f, lists, rest[0]);
      var acc' := if r.value.Some? then acc + [r.value.value] else acc;
      assert ListLoop(getName, suffix, f, lists, rest, acc) == ListLoop(getName, suffix, f, lists, rest[1..], acc');
      ListLoopLists(getName, suffix, f, lists, rest[1..], acc', name);
      if r.value.Some? {
        ListedAppend(acc, r.value.value, name);
      }
      if exists k :: 0 <= k < |rest[1..]| && rest[1..][k].name == name && ToList(getName, suffix, f, lists, rest[1..][k]) {
        var k :| 0 <= k < |rest[1..]| && rest[1..][k].name == name && ToList(getName, suffix, f, lists, rest[1..][k]);
        assert rest[k + 1] == rest[1..][k];
      }
      if exists k :: 0 < k < |rest| && rest[k].name == name && ToList(getName, suffix, f, lists, rest[k]) {
        var k :| 0 < k < |rest| && rest[k].name == name && ToList(getName, suffix, f, lists, rest[k]);
        assert rest[1..][k - 1] == rest[k];
      }
    }
  }

  lemma ListedAppend(es: seq<PlanVM>, e: PlanVM, name: string)
    ensures ListedIn(es + [e], name) <==> ListedIn(es, name) || e.name == name
  {
    assert (es + [e])[|es|] == e;
    if ListedIn(es, name) {
      var k :| 0 <= k < |es| && es[k].name == name;
      assert (es + [e])[k] == es[k];
    }
  }

  lemma ListedByName(es: seq<PlanVM>, name: string)
    ensures ListedIn(es, name) <==> name in multiset(Names(es))
  {
    if ListedIn(es, name) {
      var k :| 0 <= k < |es| && es[k].name == name;
      assert Names(es)[k] == name;
    }
    if name in multiset(Names(es)) {
      var k :| 0 <= k < |Names(es)| && Names(es)[k] == name;
      assert es[k].name == name;
    }
  }

  /** Who is listed, and where: an error-free validation before completion lists a spec VM if and only if it passed its
      check and has sources now or had some recorded; before anything has started it lists it as ready or invalid, and
      once a migration tells as in progress. */
  lemma ListedExactly(getName: Namer, suffix: Option<string>, f: Facts, lists: Lists, spec: seq<SpecVM>, vm: SpecVM)
    requires f.status != AllCompleted && Validated(getName, suffix, f, lists, spec).1
    requires Distinct(SpecNames(spec)) && vm in spec
    ensures
      var lists' := Validated(getName, suffix, f, lists, spec).0;
      && lists'.failed == [] && lists'.completed == []
      && (if f.status == NotStarted then lists'.inProgress == [] else lists'.ready == [] && lists'.invalid == [])
      && (ToList(getName, suffix, f, lists, vm) <==>
            if f.status == NotStarted then ListedIn(lists'.ready, vm.name) || ListedIn(lists'.invalid, vm.name)
            else ListedIn(lists'.inProgress, vm.name))
  {
    var none: seq<PlanVM> := [];
    var entries := ListLoop(getName, suffix, f, lists, spec, none).0;
    var lists' := Validated(getName, suffix, f, lists, spec).0;
    ListLoopLists(getName, suffix, f, lists, spec, none, vm.name);
    forall k | 0 <= k < |spec| && spec[k].name == vm.name ensures spec[k] == vm {
      assert SpecNames(spec)[k] == vm.name;
      var i :| 0 <= i < |spec| && spec[i] == vm;
      assert SpecNames(spec)[i] == vm.name;
    }
    if f.status == NotStarted {
      SplitReadyPartitions(f, entries, none, none, none);
      assert Names(none) == [];
      assert multiset(Names(lists'.ready)) + multiset(Names(lists'.invalid)) == multiset(Names(entries));
      ListedByName(entries, vm.name);
      ListedByName(lists'.ready, vm.name);
      ListedByName(lists'.invalid, vm.name);
    } else {
      assert SplitReady(f, none, none, none, none).ready == none;
    }
  }

  // ----- Which record of a VM counts -----

  predicate LastNamed(es: seq<PlanVM>, name: string, k: int) {
    0 <= k < |es| && es[k].name == name && forall j :: k < j < |es| ==> es[j].name != name
  }

  lemma {:induction false} LastByNameIs(es: seq<PlanVM>, name: string) returns (k: int)
    ensures LastByName(es, name).Some? ==> LastNamed(es, name, k) && LastByName(es, name) == Some(es[k])
    ensures LastByName(es, name).None? ==> forall j :: 0 <= j < |es| ==> es[j].name != name
  {
    k := |es| - 1;
    if es != [] && es[k].name != name {
      k := LastByNameIs(es[..k], name);
    }
  }

  lemma {:induction false} LastByNameConcat(a: seq<PlanVM>, b: seq<PlanVM>, name: string)
    ensures LastByName(a + b, name) == if LastByName(b, name).Some? then LastByName(b, name) else LastByName(a, name)
  {
    if b == [] {
      assert a + b == a;
    } else {
      var init := b[..|b| - 1];
      assert (a + b)[..|a + b| - 1] == a + init;
      LastByNameConcat(a, init, name);
    }
  }

  /** Of several records of a VM the last one counts, in the order Ready, InProgress, Failed, Completed, Invalid. */
  lemma ExistingExactly(lists: Lists, name: string)
    ensures Existing(lists, name) ==
      if ListedIn(lists.invalid, name) then LastByName(lists.invalid, name)
      else if ListedIn(lists.completed, name) then LastByName(lists.completed, name)
      else if ListedIn(lists.failed, name) then LastByName(lists.failed, name)
      else if ListedIn(lists.inProgress, name) then LastByName(lists.inProgress, name)
      else LastByName(lists.ready, name)
  {
    var l := lists;
    LastByNameConcat(l.ready + l.inProgress + l.failed + l.completed, l.invalid, name);
    LastByNameConcat(l.ready + l.inProgress + l.failed, l.completed, name);
    LastByNameConcat(l.ready + l.inProgress, l.failed, name);
    LastByNameConcat(l.ready, l.inProgress, name);
    FoundWhenListed(l.invalid, name);
    FoundWhenListed(l.completed, name);
    FoundWhenListed(l.failed, name);
    FoundWhenListed(l.inProgress, name);
  }

  lemma FoundWhenListed(es: seq<PlanVM>, name: string)
    ensures LastByName(es, name).Some? <==> ListedIn(es, name)
  {
    var k := LastByNameIs(es, name);
    if LastByName(es, name).Some? {
      assert es[k].name == name;
    }
  }
}
