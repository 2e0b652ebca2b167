/** The status lists a plan reconcile rebuilds from the cluster, without forgetting the original sources. */
module PlanLists {
  import opened Basics
  import opened Objects
  import opened PlanNaming

  datatype SpecVM = SpecVM(name: string, targets: seq<TargetPVC>)

  datatype Lists = Lists(
    ready: seq<PlanVM>,
    inProgress: seq<PlanVM>,
    failed: seq<PlanVM>,
    completed: seq<PlanVM>,
    invalid: seq<PlanVM>)

  datatype MigrationStatus = NotStarted | InProgress | AllCompleted

  datatype MigrationRef = MigrationRef(phase: Phase, created: nat, completed: seq<string>)

  /** The phases that say something about the plan: disks are being moved, or have been. */
  predicate Tells(p: Phase) {
    p in {WaitForLiveMigrationToComplete, CleanupMigrationResources, Canceling, CleanupCancelledMigrations, Completed}
  }

  predicate FirstTelling(migrations: seq<MigrationRef>, i: int) {
    0 <= i < |migrations| && Tells(migrations[i].phase) && forall j :: 0 <= j < i ==> !Tells(migrations[j].phase)
  }

  /** The first migration of the plan that tells decides; a migration before it never does. A failed listing tells nothing. */
  method GetMigrationStatus(listing: Result<seq<MigrationRef>>) returns (r: MigrationStatus)
    ensures r == NotStarted <==> listing.Err? || forall i :: 0 <= i < |listing.value| ==> !Tells(listing.value[i].phase)
    ensures r == InProgress ==> exists i :: FirstTelling(listing.value, i) && listing.value[i].phase != Completed
    ensures r == AllCompleted ==> exists i :: FirstTelling(listing.value, i) && listing.value[i].phase == Completed
  {
    if listing.Err? {
      return NotStarted;
    }
    var migrations := listing.value;
    for i := 0 to |migrations|
      invariant forall j :: 0 <= j < i ==> !Tells(migrations[j].phase)
    {
      assert Tells(migrations[i].phase) ==> FirstTelling(migrations, i);
      match migrations[i].phase {
        case WaitForLiveMigrationToComplete => return InProgress;
        case CleanupMigrationResources => return InProgress;
        case Canceling => return InProgress;
        case CleanupCancelledMigrations => return InProgress;
        case Completed => return AllCompleted;
        case _ =>
      }
    }
    return NotStarted;
  }

  datatype Check = CheckFails | NotPossible | Possible

  datatype Lookup = Found | Missing | LookupFails

  /** What one reconcile observes. Names absent from `checks` are VMs that do not exist; names absent from `claims`
      or `classes` are objects that do not exist. */
  datatype Facts = Facts(
    namespace: string,
    status: MigrationStatus,
    checks: map<string, Check>,
    vms: map<string, VM>,
    claims: map<string, Lookup>,
    classes: map<string, Lookup>,
    defaultClass: Result<Option<string>>)

  function LookUp(m: map<string, Lookup>, name: string): Lookup {
    if name in m then m[name] else Missing
  }

  // ----- createStatusVM -----

  /** The claim of the first volume of that name that has one. */
  function FirstClaim(volumes: seq<Volume>, volume: string): string {
    if volumes == [] then ""
    else if volumes[0].name == volume && !volumes[0].source.OtherSource? then ClaimName(volumes[0])
    else FirstClaim(volumes[1..], volume)
  }

  /** The source KubeVirt recorded for a destination claim, the claim itself when none is recorded; an entry with
      missing claim information is dereferenced. */
  function Recalled(migrated: seq<MigratedVolume>, claim: string): Result<string> {
    if migrated == [] then Ok(claim)
    else if migrated[0].destination.None? then Err
    else if migrated[0].destination.value == claim then
      if migrated[0].source.None? then Err else Ok(migrated[0].source.value)
    else Recalled(migrated[1..], claim)
  }

  /** getSourcePVC: Ok(None) when the volume has no claim or the claim does not exist. */
  function SourceClaim(f: Facts, vm: VM, volume: string): Result<Option<string>> {
    var claim := FirstClaim(vm.volumes, volume);
    if claim == "" then Ok(None)
    else
      var recalled := if f.status == NotStarted then Ok(claim) else Recalled(vm.migrated, claim);
      if recalled.Err? then Err
      else
        var name := if recalled.value != "" then recalled.value else claim;
        match LookUp(f.claims, name)
        case Found => Ok(Some(name))
        case Missing => Ok(None)
        case LookupFails => Err
  }

  /** Continues an entry from its i-th target; Ok(None) is the empty status VM. */
  function ComputeFrom(getName: Namer, suffix: Option<string>, f: Facts, vm: VM, spec: SpecVM, i: nat, acc: PlanVM): Result<Option<PlanVM>>
    requires i <= |spec.targets| && |acc.targets| == |spec.targets|
    decreases |spec.targets| - i
  {
    if i == |spec.targets| then Ok(if acc.sources == [] then None else Some(acc))
    else
      var t := spec.targets[i];
      match SourceClaim(f, vm, t.volumeName)
      case Err => Err
      case Ok(None) => Ok(None)
      case Ok(Some(source)) =>
        match TargetPVCName(getName, t.destination, source, suffix)
        case Err => Err
        case Ok(name) =>
          ComputeFrom(getName, suffix, f, vm, spec, i + 1,
            acc.(sources := acc.sources + [SourcePVC(t.volumeName, source, f.namespace)],
                 targets := acc.targets[i := acc.targets[i].(destination := Some(name))]))
  }

  function Compute(getName: Namer, suffix: Option<string>, f: Facts, spec: SpecVM): Result<Option<PlanVM>> {
    if spec.name in f.vms then ComputeFrom(getName, suffix, f, f.vms[spec.name], spec, 0, PlanVM(spec.name, spec.targets, []))
    else if spec.targets == [] then Ok(None)
    else Err
  }

  method CreateStatusVM(getName: Namer, suffix: Option<string>, f: Facts, spec: SpecVM) returns (r: Result<Option<PlanVM>>)
    ensures r == Compute(getName, suffix, f, spec)
  {
    if spec.name !in f.vms {
      return if spec.targets == [] then Ok(None) else Err;
    }
    var vm := f.vms[spec.name];
    var entry := PlanVM(spec.name, spec.targets, []);
    for i := 0 to |spec.targets|
      invariant |entry.targets| == |spec.targets|
      invariant Compute(getName, suffix, f, spec) == ComputeFrom(getName, suffix, f, vm, spec, i, entry)
    {
      var source := SourceClaim(f, vm, spec.targets[i].volumeName);
      if source.Err? {
        return Err;
      }
      if source.value.None? {
        return Ok(None);
      }
      var name := TargetPVCName(getName, spec.targets[i].destination, source.value.value, suffix);
      if name.Err? {
        return Err;
      }
      entry := entry.(sources := entry.sources + [SourcePVC(spec.targets[i].volumeName, source.value.value, f.namespace)],
                      targets := entry.targets[i := entry.targets[i].(destination := Some(name.value))]);
    }
    return Ok(if entry.sources == [] then None else Some(entry));
  }

  // ----- Existing entries -----

  function LastByName(entries: seq<PlanVM>, name: string): Option<PlanVM> {
    if entries == [] then None
    else
      var last := entries[|entries| - 1];
      if last.name == name then Some(last) else LastByName(entries[..|entries| - 1], name)
  }

  /** Later lists win over earlier ones. */
  function Existing(lists: Lists, name: string): Option<PlanVM> {
    LastByName(lists.ready + lists.inProgress + lists.failed + lists.completed + lists.invalid, name)
  }

  method ExistingStatusVMMap(lists: Lists) returns (m: map<string, PlanVM>)
    ensures forall n :: n in m <==> Existing(lists, n).Some?
    ensures forall n :: n in m ==> Existing(lists, n) == Some(m[n])
  {
    var all := lists.ready + lists.inProgress + lists.failed + lists.completed + lists.invalid;
    m := map[];
    for i := 0 to |all|
      invariant forall n :: n in m <==> LastByName(all[..i], n).Some?
      invariant forall n :: n in m ==> LastByName(all[..i], n) == Some(m[n])
    {
      assert all[..i + 1][..i] == all[..i];
      m := m[all[i].name := all[i]];
    }
    assert all[..|all|] == all;
  }

  // ----- hasVMBeenSwapped, sourcesMatchTargets -----

  function NameFor(sources: seq<SourcePVC>, volume: string): Option<string> {
    if sources == [] then None
    else
      var last := sources[|sources| - 1];
      if last.volumeName == volume then Some(last.name) else NameFor(sources[..|sources| - 1], volume)
  }

  function Swapped(original: seq<SourcePVC>, computed: seq<SourcePVC>): bool {
    |original| != |computed| || exists i :: 0 <= i < |computed| && NameFor(original, computed[i].volumeName) != Some(computed[i].name)
  }

  method HasVMBeenSwapped(original: seq<SourcePVC>, computed: seq<SourcePVC>) returns (r: bool)
    ensures r == Swapped(original, computed)
  {
    if |original| != |computed| {
      return true;
    }
    var names: map<string, string> := map[];
    for i := 0 to |original|
      invariant forall v :: v in names <==> NameFor(original[..i], v).Some?
      invariant forall v :: v in names ==> NameFor(original[..i], v) == Some(names[v])
    {
      assert original[..i + 1][..i] == original[..i];
      names := names[original[i].volumeName := original[i].name];
    }
    assert original[..|original|] == original;
    for i := 0 to |computed|
      invariant forall k :: 0 <= k < i ==> NameFor(original, computed[k].volumeName) == Some(computed[k].name)
    {
      if computed[i].volumeName !in names || names[computed[i].volumeName] != computed[i].name {
        return true;
      }
    }
    return false;
  }

  function SourcesMatchTargets(e: PlanVM): bool {
    && e.sources != [] && |e.sources| == |e.targets|
    && forall i :: 0 <= i < |e.sources| ==> e.targets[i].destination == Some(e.sources[i].name)
  }

  /** The entry to record, given what was recorded before and what was computed now; None drops the VM. */
  function Merge(existing: Option<PlanVM>, computed: Option<PlanVM>): Option<PlanVM> {
    var recorded := existing.Some? && existing.value.sources != [];
    if computed.None? && !recorded then None
    else
      var e0 := if computed.None? then existing.value else computed.value;
      var e1 := if recorded && Swapped(existing.value.sources, e0.sources) then e0.(sources := existing.value.sources) else e0;
      Some(if SourcesMatchTargets(e1) && existing.Some? && !SourcesMatchTargets(existing.value) then e1.(sources := existing.value.sources) else e1)
  }

  // ----- The loop over the spec -----

  function EntryFor(getName: Namer, suffix: Option<string>, f: Facts, lists: Lists, vm: SpecVM): Result<Option<PlanVM>> {
    match (if vm.name in f.checks then f.checks[vm.name] else NotPossible)
    case CheckFails => Err
    case NotPossible => Ok(None)
    case Possible =>
      match Compute(getName, suffix, f, vm)
      case Err => Err
      case Ok(computed) => Ok(Merge(Existing(lists, vm.name), computed))
  }

  /** Entries in spec order, and whether the loop reached the end. */
  function ListLoop(getName: Namer, suffix: Option<string>, f: Facts, lists: Lists, rest: seq<SpecVM>, acc: seq<PlanVM>): (seq<PlanVM>, bool)
    decreases rest
  {
    if rest == [] then (acc, true)
    else
      match EntryFor(getName, suffix, f, lists, rest[0])
      case Err => (acc, false)
      case Ok(None) => ListLoop(getName, suffix, f, lists, rest[1..], acc)
      case Ok(Some(e)) => ListLoop(getName, suffix, f, lists, rest[1..], acc + [e])
  }

  // ----- validatePVCs -----

  datatype Verdict = Fine | Issue | Broken

  /** Checks one ready entry from its i-th target: the entry, with default classes filled in as far as the check got. */
  function CheckTargets(f: Facts, e: PlanVM, i: nat): (PlanVM, Verdict)
    requires i <= |e.targets|
    decreases |e.targets| - i
  {
    if i == |e.targets| then (e, Fine)
    else
      var class_ := e.targets[i].storageClass;
      if class_.Some? && class_.value != "" then
        match LookUp(f.classes, class_.value)
        case LookupFails => (e, Broken)
        case Missing => (e, Issue)
        case Found => CheckName(f, e, i)
      else
        match f.defaultClass
        case Err => (e, Broken)
        case Ok(None) => (e, Issue)
        case Ok(Some(d)) =>
          if d == "" then (e, Issue)
          else CheckName(f, e.(targets := e.targets[i := e.targets[i].(storageClass := Some(d))]), i)
  }

  /** A destination that is also the source is an issue before anything has started; a missing source is indexed. */
  function CheckName(f: Facts, e: PlanVM, i: nat): (PlanVM, Verdict)
    requires i < |e.targets|
    decreases |e.targets| - i, 0
  {
    if e.targets[i].destination.Some? && |e.sources| <= i then (e, Broken)
    else if e.targets[i].destination.Some? && e.targets[i].destination.value == e.sources[i].name && f.status == NotStarted then (e, Issue)
    else CheckTargets(f, e, i + 1)
  }

  /** `seen` is the ready list itself, whose entries the checks edit as they go: it is what a failure leaves. */
  datatype Split = Split(ok: bool, ready: seq<PlanVM>, invalid: seq<PlanVM>, seen: seq<PlanVM>)

  function SplitReady(f: Facts, rest: seq<PlanVM>, ready: seq<PlanVM>, invalid: seq<PlanVM>, seen: seq<PlanVM>): Split
    decreases rest
  {
    if rest == [] then Split(true, ready, invalid, seen)
    else
      var (e, verdict) := CheckTargets(f, rest[0], 0);
      match verdict
      case Fine => SplitReady(f, rest[1..], ready + [e], invalid, seen + [e])
      case Issue => SplitReady(f, rest[1..], ready, invalid + [e], seen + [e])
      case Broken => Split(false, ready, invalid, seen + [e] + rest[1..])
  }

  // ----- validateStorageMigrationPossible and the moves after it -----

  /** healCompletedMigrations */
  function Healed(lists: Lists, spec: seq<SpecVM>): Lists {
    if lists.completed != [] then lists
    else lists.(completed := seq(|spec|, i requires 0 <= i < |spec| => PlanVM(spec[i].name, spec[i].targets, [])))
  }

  /** The lists are reset before anything fallible, so a failing reconcile leaves only what it had rebuilt so far. */
  function Validated(getName: Namer, suffix: Option<string>, f: Facts, lists: Lists, spec: seq<SpecVM>): (Lists, bool) {
    if f.status == AllCompleted then (Healed(lists, spec), true)
    else
      var (entries, ok) := ListLoop(getName, suffix, f, lists, spec, []);
      var rebuilt := if f.status == NotStarted then Lists(entries, [], [], [], []) else Lists([], entries, [], [], []);
      if !ok then (rebuilt, false)
      else
        var split := SplitReady(f, rebuilt.ready, [], [], []);
        (if split.ok then rebuilt.(ready := split.ready, invalid := split.invalid) else rebuilt.(ready := split.seen), split.ok)
  }

  function Without(entries: seq<PlanVM>, names: seq<string>): seq<PlanVM> {
    if entries == [] then []
    else if entries[0].name in names then Without(entries[1..], names)
    else [entries[0]] + Without(entries[1..], names)
  }

  function Within(entries: seq<PlanVM>, names: seq<string>): seq<PlanVM> {
    if entries == [] then []
    else if entries[0].name in names then [entries[0]] + Within(entries[1..], names)
    else Within(entries[1..], names)
  }

  /** updateReadyCompletedMigrations */
  function Moved(lists: Lists, done: seq<string>): Lists {
    lists.(ready := Without(lists.ready, done),
           inProgress := Without(lists.inProgress, done),
           completed := lists.completed + Within(lists.ready, done) + Within(lists.inProgress, done))
  }

  /** One reconcile of the lists; `last` is what the deciding migration has completed, if the plan has migrations. */
  function Reconciled(getName: Namer, suffix: Option<string>, f: Facts, lists: Lists, spec: seq<SpecVM>, last: Option<seq<string>>): (Lists, bool) {
    var (validated, ok) := Validated(getName, suffix, f, lists, spec);
    (if last.Some? then Moved(validated, last.value) else validated, ok)
  }

  lemma {:induction false} WithoutAppend(a: seq<PlanVM>, b: seq<PlanVM>, names: seq<string>)
    ensures Without(a + b, names) == Without(a, names) + Without(b, names)
    ensures Within(a + b, names) == Within(a, names) + Within(b, names)
  {
    if a == [] {
      assert a + b == b;
    } else {
      assert (a + b)[1..] == a[1..] + b;
      WithoutAppend(a[1..], b, names);
    }
  }

  /** The plan's status as the reconciler edits it. */
  class PlanReconciler {
    const getName: Namer
    const suffix: Option<string>
    const spec: seq<SpecVM>
    var lists: Lists

    constructor (getName: Namer, suffix: Option<string>, spec: seq<SpecVM>, lists: Lists)
      ensures this.getName == getName && this.suffix == suffix && this.spec == spec && this.lists == lists
    {
      this.getName, this.suffix, this.spec, this.lists := getName, suffix, spec, lists;
    }

    method ValidatePVCs(f: Facts) returns (ok: bool)
      modifies this
      ensures
        var split := SplitReady(f, old(lists).ready, [], [], []);
        ok == split.ok && lists == if split.ok then old(lists).(ready := split.ready, invalid := split.invalid) else old(lists).(ready := split.seen)
    {
      var ready: seq<PlanVM>, invalid: seq<PlanVM> := [], [];
      ghost var were := lists.ready;
      for i := 0 to |lists.ready|
        modifies this
        invariant |lists.ready| == |were| && lists.ready[i..] == were[i..] && lists == old(lists).(ready := lists.ready)
        invariant SplitReady(f, were, [], [], []) == SplitReady(f, were[i..], ready, invalid, lists.ready[..i])
      {
        var checked := CheckTargets(f, lists.ready[i], 0);
        assert were[i..][0] == lists.ready[i] && were[i..][1..] == were[i + 1..];
        ghost var before := lists.ready[..i];
        lists := lists.(ready := lists.ready[i := checked.0]);
        assert lists.ready[..i + 1] == before + [checked.0] && lists.ready == before + [checked.0] + were[i + 1..];
        if checked.1 == Broken {
          return false;
        }
        if checked.1 == Issue {
          invalid := invalid + [checked.0];
        } else {
          ready := ready + [checked.0];
        }
      }
      lists := lists.(ready := ready, invalid := invalid);
      return true;
    }

    method ValidateStorageMigrationPossible(f: Facts) returns (ok: bool)
      modifies this
      ensures (lists, ok) == Validated(getName, suffix, f, old(lists), spec)
    {
      if f.status == AllCompleted {
        HealCompletedMigrations();
        return true;
      }
      var existing := ExistingStatusVMMap(lists);
      ghost var before := lists;
      lists := Lists([], [], [], [], []);
      var entries: seq<PlanVM> := [];
      for i := 0 to |spec|
        modifies this
        invariant ListLoop(getName, suffix, f, before, spec, []) == ListLoop(getName, suffix, f, before, spec[i..], entries)
        invariant lists == if f.status == NotStarted then Lists(entries, [], [], [], []) else Lists([], entries, [], [], [])
      {
        var vm := spec[i];
        var check := if vm.name in f.checks then f.checks[vm.name] else NotPossible;
        if check == CheckFails {
          return false;
        }
        if check == NotPossible {
          continue;
        }
        var computed := CreateStatusVM(getName, suffix, f, vm);
        if computed.Err? {
          return false;
        }
        var merged := Merge(if vm.name in existing then Some(existing[vm.name]) else None, computed.value);
        if merged.None? {
          continue;
        }
        entries := entries + [merged.value];
        lists := if f.status == NotStarted then lists.(ready := lists.ready + [merged.value]) else lists.(inProgress := lists.inProgress + [merged.value]);
      }
      ok := ValidatePVCs(f);
    }

    method HealCompletedMigrations()
      modifies this
      ensures lists == Healed(old(lists), spec)
    {
      if |lists.completed| > 0 {
        return;
      }
      var healed: seq<PlanVM> := [];
      for i := 0 to |spec|
        modifies {}
        invariant |healed| == i && forall k :: 0 <= k < i ==> healed[k] == PlanVM(spec[k].name, spec[k].targets, [])
      {
        healed := healed + [PlanVM(spec[i].name, spec[i].targets, [])];
      }
      lists := lists.(completed := healed);
      assert lists.completed == Healed(old(lists), spec).completed;
    }

    method UpdateReadyCompletedMigrations(done: seq<string>)
      modifies this
      ensures lists == Moved(old(lists), done)
    {
      var ready, completed := MoveDone(lists.ready, done, lists.completed);
      var inProgress;
      inProgress, completed := MoveDone(lists.inProgress, done, completed);
      lists := lists.(ready := ready, inProgress := inProgress, completed := completed);
    }
  }

  /** One of the two loops that move completed VMs. */
  method MoveDone(entries: seq<PlanVM>, done: seq<string>, before: seq<PlanVM>) returns (kept: seq<PlanVM>, completed: seq<PlanVM>)
    ensures kept == Without(entries, done) && completed == before + Within(entries, done)
  {
    kept, completed := [], before;
    for i := 0 to |entries|
      invariant kept == Without(entries[..i], done) && completed == before + Within(entries[..i], done)
    {
      var vm := entries[i];
      assert entries[..i + 1] == entries[..i] + [vm];
      WithoutAppend(entries[..i], [vm], done);
      if vm.name !in done {
        kept := kept + [vm];
      } else {
        completed := completed + [vm];
      }
    }
    assert entries[..|entries|] == entries;
  }
}
