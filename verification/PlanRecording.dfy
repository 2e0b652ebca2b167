/** What a plan reconcile records for a VM, in terms of the VM's volumes and the claims that exist. */
module PlanRecording {
  import opened Basics
  import opened Objects
  import opened PlanNaming
  import opened PlanLists
  import opened PlanPartition
  import opened PlanSticky

  // ----- The source of a volume -----

  ghost predicate DistinctVolumeNames(vm: VM) {
    forall i, j :: 0 <= i < j < |vm.volumes| ==> vm.volumes[i].name != vm.volumes[j].name
  }

  /** The volume is on the claim now. */
  predicate IsOn(vm: VM, k: int, volume: string, claim: string) {
    0 <= k < |vm.volumes| && vm.volumes[k].name == volume && !vm.volumes[k].source.OtherSource? && ClaimName(vm.volumes[k]) == claim
  }

  /** The k-th migrated volume is the first whose destination is the claim; those before it have one too. */
  predicate FirstMove(migrated: seq<MigratedVolume>, claim: string, k: int) {
    && 0 <= k < |migrated| && migrated[k].destination == Some(claim)
    && forall j :: 0 <= j < k ==> migrated[j].destination.Some? && migrated[j].destination != Some(claim)
  }

  /** Where the claim came from by KubeVirt's record: the source of the first move to it, where that has a name, and
      the claim itself when there is no such move. */
  ghost predicate CameFrom(migrated: seq<MigratedVolume>, claim: string, source: string) {
    || (exists k :: FirstMove(migrated, claim, k) && migrated[k].source.Some? && source == if migrated[k].source.value != "" then migrated[k].source.value else claim)
    || (source == claim && forall j :: 0 <= j < |migrated| ==> migrated[j].destination.Some? && migrated[j].destination != Some(claim))
  }

  /** The source a reconcile should record for a volume: the claim the volume is on before anything has started, and
      where that claim came from once a migration tells; either way a claim that exists. */
  ghost predicate IsSourceOf(f: Facts, vm: VM, volume: string, source: string) {
    && source in f.claims && f.claims[source] == Found
    && exists k :: 0 <= k < |vm.volumes| && ClaimName(vm.volumes[k]) != "" && IsOn(vm, k, volume, ClaimName(vm.volumes[k]))
         && if f.status == NotStarted then source == ClaimName(vm.volumes[k]) else CameFrom(vm.migrated, ClaimName(vm.volumes[k]), source)
  }

  lemma MoveLater(migrated: seq<MigratedVolume>, claim: string, k: int)
    requires migrated != [] && migrated[0].destination.Some? && migrated[0].destination != Some(claim)
    ensures FirstMove(migrated, claim, k) <==> FirstMove(migrated[1..], claim, k - 1)
  {
    if FirstMove(migrated[1..], claim, k - 1) {
      assert forall j :: 0 < j < k ==> migrated[j] == migrated[1..][j - 1];
    }
  }

  lemma {:induction false} RecalledIff(migrated: seq<MigratedVolume>, claim: string, source: string)
    ensures
      var r := Recalled(migrated, claim);
      CameFrom(migrated, claim, source) <==> r.Ok? && source == if r.value != "" then r.value else claim
  {
    if migrated != [] {
      if migrated[0].destination == Some(claim) {
        assert FirstMove(migrated, claim, 0);
        assert forall k :: FirstMove(migrated, claim, k) ==> k == 0;
      } else if migrated[0].destination.Some? {
        RecalledIff(migrated[1..], claim, source);
        forall k ensures FirstMove(migrated, claim, k) <==> FirstMove(migrated[1..], claim, k - 1) {
          MoveLater(migrated, claim, k);
        }
        if CameFrom(migrated[1..], claim, source) {
          if k :| FirstMove(migrated[1..], claim, k) && migrated[1..][k].source.Some? && source == if migrated[1..][k].source.value != "" then migrated[1..][k].source.value else claim {
            assert FirstMove(migrated, claim, k + 1) && migrated[k + 1] == migrated[1..][k];
          }
          assert forall j :: 0 < j < |migrated| ==> migrated[j] == migrated[1..][j - 1];
        }
      }
    }
  }

  lemma {:induction false} FirstClaimOf(volumes: seq<Volume>, volume: string, k: nat)
    requires k < |volumes| && volumes[k].name == volume && !volumes[k].source.OtherSource?
    requires forall i :: 0 <= i < k ==> volumes[i].name != volume
    ensures FirstClaim(volumes, volume) == ClaimName(volumes[k])
  {
    if k > 0 {
      FirstClaimOf(volumes[1..], volume, k - 1);
    }
  }

  /** The recorded source is exactly the right one. */
  lemma SourceClaimIff(f: Facts, vm: VM, volume: string, source: string)
    requires DistinctVolumeNames(vm)
    ensures SourceClaim(f, vm, volume) == Ok(Some(source)) <==> IsSourceOf(f, vm, volume, source)
  {
    var claim := FirstClaim(vm.volumes, volume);
    FirstClaimAt(vm.volumes, volume);
    RecalledIff(vm.migrated, claim, source);
    forall k | 0 <= k < |vm.volumes| && IsOn(vm, k, volume, ClaimName(vm.volumes[k])) ensures ClaimName(vm.volumes[k]) == claim {
      FirstClaimOf(vm.volumes, volume, k);
    }
    if claim != "" {
      var k :| 0 <= k < |vm.volumes| && vm.volumes[k].name == volume && !vm.volumes[k].source.OtherSource? && ClaimName(vm.volumes[k]) == claim;
      assert IsOn(vm, k, volume, ClaimName(vm.volumes[k]));
    }
  }

  // ----- The entry of a VM -----

  /** The target's volume has a source, and the destination a name. */
  ghost predicate CanRecord(getName: Namer, suffix: Option<string>, f: Facts, vm: VM, t: TargetPVC) {
    exists s :: IsSourceOf(f, vm, t.volumeName, s) && TargetPVCName(getName, t.destination, s, suffix).Ok?
  }

  /** The entry is what should be recorded: target by target, the volume's source and the destination's name. */
  ghost predicate RecordsFrom(getName: Namer, suffix: Option<string>, f: Facts, vm: VM, spec: SpecVM, e: PlanVM) {
    && e.name == spec.name && |e.sources| == |e.targets| == |spec.targets| && spec.targets != []
    && forall i :: 0 <= i < |spec.targets| ==> RecordsAt(getName, suffix, f, vm, spec, e, i)
  }

  ghost predicate RecordsAt(getName: Namer, suffix: Option<string>, f: Facts, vm: VM, spec: SpecVM, e: PlanVM, i: nat)
    requires i < |spec.targets| && i < |e.sources| && i < |e.targets|
  {
    var t, s := spec.targets[i], e.sources[i];
    && IsSourceOf(f, vm, t.volumeName, s.name) && s == SourcePVC(t.volumeName, s.name, f.namespace)
    && e.targets[i] == t.(destination := e.targets[i].destination)
    && e.targets[i].destination.Some? && TargetPVCName(getName, t.destination, s.name, suffix) == Ok(e.targets[i].destination.value)
  }

  ghost predicate PartlyRecorded(getName: Namer, suffix: Option<string>, f: Facts, vm: VM, spec: SpecVM, e: PlanVM, i: nat)
    requires i <= |spec.targets|
  {
    && e.name == spec.name && |e.sources| == i && |e.targets| == |spec.targets|
    && (forall k :: i <= k < |spec.targets| ==> e.targets[k] == spec.targets[k])
    && forall k :: 0 <= k < i ==> RecordsAt(getName, suffix, f, vm, spec, e, k)
  }

  lemma RecordedFurther(getName: Namer, suffix: Option<string>, f: Facts, vm: VM, spec: SpecVM, e: PlanVM, i: nat, source: string, name: string)
    requires i < |spec.targets| && PartlyRecorded(getName, suffix, f, vm, spec, e, i)
    requires IsSourceOf(f, vm, spec.targets[i].volumeName, source)
    requires TargetPVCName(getName, spec.targets[i].destination, source, suffix) == Ok(name)
    ensures
      var e' := e.(sources := e.sources + [SourcePVC(spec.targets[i].volumeName, source, f.namespace)],
                   targets := e.targets[i := e.targets[i].(destination := Some(name))]);
      PartlyRecorded(getName, suffix, f, vm, spec, e', i + 1)
  {
    var e' := e.(sources := e.sources + [SourcePVC(spec.targets[i].volumeName, source, f.namespace)],
                 targets := e.targets[i := e.targets[i].(destination := Some(name))]);
    forall k | 0 <= k < i + 1 ensures RecordsAt(getName, suffix, f, vm, spec, e', k) {
      if k < i {
        assert RecordsAt(getName, suffix, f, vm, spec, e, k);
        assert e'.sources[k] == e.sources[k] && e'.targets[k] == e.targets[k];
      }
    }
  }

  lemma {:induction false} ComputeFromRecords(getName: Namer, suffix: Option<string>, f: Facts, vm: VM, spec: SpecVM, i: nat, acc: PlanVM)
    requires DistinctVolumeNames(vm) && i <= |spec.targets| && PartlyRecorded(getName, suffix, f, vm, spec, acc, i)
    ensures
      var r := ComputeFrom(getName, suffix, f, vm, spec, i, acc);
      && (r.Ok? && r.value.Some? ==> RecordsFrom(getName, suffix, f, vm, spec, r.value.value))
      && (!(r.Ok? && r.value.Some?) && spec.targets != [] ==>
            exists k :: i <= k < |spec.targets| && !CanRecord(getName, suffix, f, vm, spec.targets[k]))
    decreases |spec.targets| - i
  {
    if i < |spec.targets| {
      var t := spec.targets[i];
      var c := SourceClaim(f, vm, t.volumeName);
      forall s ensures c == Ok(Some(s)) <==> IsSourceOf(f, vm, t.volumeName, s) {
        SourceClaimIff(f, vm, t.volumeName, s);
      }
      if c.Ok? && c.value.Some? && TargetPVCName(getName, t.destination, c.value.value, suffix).Ok? {
        var name := TargetPVCName(getName, t.destination, c.value.value, suffix).value;
        RecordedFurther(getName, suffix, f, vm, spec, acc, i, c.value.value, name);
        ComputeFromRecords(getName, suffix, f, vm, spec, i + 1,
          acc.(sources := acc.sources + [SourcePVC(t.volumeName, c.value.value, f.namespace)],
               targets := acc.targets[i := acc.targets[i].(destination := Some(name))]));
      } else {
        assert !CanRecord(getName, suffix, f, vm, t);
      }
    }
  }

  /** What createStatusVM records, exactly: an entry for the VM, if and only if the VM exists and every target's volume
      has a source that exists; and then, target by target, that source: the claim the volume is on if nothing has
      started, or where KubeVirt's record says that claim came from, with the destination named in the spec or
      generated from the source. */
  lemma ComputeExactly(getName: Namer, suffix: Option<string>, f: Facts, spec: SpecVM)
    requires spec.name in f.vms && DistinctVolumeNames(f.vms[spec.name])
    ensures
      var r, vm := Compute(getName, suffix, f, spec), f.vms[spec.name];
      && (r.Ok? && r.value.Some? ==> RecordsFrom(getName, suffix, f, vm, spec, r.value.value))
      && (r.Ok? && r.value.Some? <==>
            spec.targets != [] && forall k :: 0 <= k < |spec.targets| ==> CanRecord(getName, suffix, f, vm, spec.targets[k]))
  {
    var vm, r := f.vms[spec.name], Compute(getName, suffix, f, spec);
    ComputeFromRecords(getName, suffix, f, vm, spec, 0, PlanVM(spec.name, spec.targets, []));
    if r.Ok? && r.value.Some? {
      forall k | 0 <= k < |spec.targets| ensures CanRecord(getName, suffix, f, vm, spec.targets[k]) {
        assert RecordsAt(getName, suffix, f, vm, spec, r.value.value, k);
      }
    }
  }

  /** Two different volumes on different claims are recorded with their own. */
  lemma EachVolumeItsOwn(getName: Namer, suffix: Option<string>, f: Facts, spec: SpecVM, i: nat, k: nat)
    requires spec.name in f.vms && DistinctVolumeNames(f.vms[spec.name]) && f.status == NotStarted
    requires Compute(getName, suffix, f, spec).Ok? && Compute(getName, suffix, f, spec).value.Some?
    requires i < |spec.targets| && k < |f.vms[spec.name].volumes| && f.vms[spec.name].volumes[k].name == spec.targets[i].volumeName
    ensures
      var e := Compute(getName, suffix, f, spec).value.value;
      |e.sources| == |spec.targets| && e.sources[i].name == ClaimName(f.vms[spec.name].volumes[k])
  {
    ComputeExactly(getName, suffix, f, spec);
    assert RecordsAt(getName, suffix, f, f.vms[spec.name], spec, Compute(getName, suffix, f, spec).value.value, i);
  }
}
