/** The rewrite, the recovery and the revert, entry by entry and index by index, for any plan entry whatever. */
module RewriteDetails {
  import opened Basics
  import opened Objects
  import opened VolumeRewrite

  // ----- Which record counts when there are several -----

  predicate LastTargetAt(targets: seq<TargetPVC>, volume: string, i: int) {
    0 <= i < |targets| && targets[i].volumeName == volume && forall j :: i < j < |targets| ==> targets[j].volumeName != volume
  }

  predicate LastSourceAt(sources: seq<SourcePVC>, name: string, i: int) {
    0 <= i < |sources| && sources[i].name == name && forall j :: i < j < |sources| ==> sources[j].name != name
  }

  lemma {:induction false} TargetForLast(targets: seq<TargetPVC>, volume: string) returns (i: int)
    ensures TargetFor(targets, volume).Some? ==> LastTargetAt(targets, volume, i) && TargetFor(targets, volume) == Some(targets[i])
    ensures TargetFor(targets, volume).None? ==> forall j :: 0 <= j < |targets| ==> targets[j].volumeName != volume
  {
    i := |targets| - 1;
    if targets != [] && targets[i].volumeName != volume {
      i := TargetForLast(targets[..i], volume);
    }
  }

  lemma {:induction false} VolumeForLast(sources: seq<SourcePVC>, name: string) returns (i: int)
    ensures VolumeFor(sources, name).Some? ==> LastSourceAt(sources, name, i) && VolumeFor(sources, name) == Some(sources[i].volumeName)
    ensures VolumeFor(sources, name).None? ==> forall j :: 0 <= j < |sources| ==> sources[j].name != name
  {
    i := |sources| - 1;
    if sources != [] && sources[i].name != name {
      i := VolumeForLast(sources[..i], name);
    }
  }

  // ----- prepareVMForStorageMigration -----

  /** The volume is on the destination of the last target of its name; a volume with no claim, or no target, stays. */
  predicate VolumePrepared(v: Volume, v': Volume, targets: seq<TargetPVC>) {
    && v'.name == v.name
    && (forall i :: 0 <= i < |targets| && LastTargetAt(targets, v.name, i) ==>
          match v.source
          case OtherSource => v' == v
          case DVSource(_) => targets[i].destination.Some? && v'.source == DVSource(targets[i].destination.value)
          case PVCSource(_) => targets[i].destination.Some? && v'.source == PVCSource(targets[i].destination.value))
    && ((forall i :: 0 <= i < |targets| ==> targets[i].volumeName != v.name) ==> v' == v)
  }

  /** The template's source is moved by target j: the last source of its name is on a volume of the VM, whose last target is j. */
  predicate MovedBy(vm: VM, t: DVTemplate, e: PlanVM, i: int, j: int) {
    && LastSourceAt(e.sources, t.name, i) && (exists k :: 0 <= k < |vm.volumes| && vm.volumes[k].name == e.sources[i].volumeName)
    && LastTargetAt(e.targets, e.sources[i].volumeName, j)
  }

  ghost predicate TemplatePrepared(vm: VM, t: DVTemplate, t': DVTemplate, e: PlanVM) {
    && (forall i, j :: MovedBy(vm, t, e, i, j) ==>
          && e.targets[j].destination.Some? && t'.name == e.targets[j].destination.value
          && t'.storage == (if t.storage.Some? then Some(ClassRef(e.targets[j].storageClass)) else None)
          && t'.pvc == (if t.storage.None? && t.pvc.Some? then Some(ClassRef(e.targets[j].storageClass)) else t.pvc))
    && ((forall i, j :: !MovedBy(vm, t, e, i, j)) ==> t' == t)
  }

  lemma VolumePreparedBy(v: Volume, targets: seq<TargetPVC>)
    ensures RewriteVolume(v, targets).Ok? ==> VolumePrepared(v, RewriteVolume(v, targets).value, targets)
    ensures RewriteVolume(v, targets).Err? ==> !v.source.OtherSource? && exists i :: LastTargetAt(targets, v.name, i) && targets[i].destination.None?
  {
    var i := TargetForLast(targets, v.name);
  }

  lemma TemplatePreparedBy(vm: VM, t: DVTemplate, e: PlanVM)
    ensures RewriteTemplate(t, vm, e).Ok? ==> TemplatePrepared(vm, t, RewriteTemplate(t, vm, e).value, e)
    ensures RewriteTemplate(t, vm, e).Err? ==> exists i, j :: MovedBy(vm, t, e, i, j) && e.targets[j].destination.None?
  {
    var i := VolumeForLast(e.sources, t.name);
    if VolumeFor(e.sources, t.name).Some? {
      var j := TargetForLast(e.targets, e.sources[i].volumeName);
      if TargetFor(e.targets, e.sources[i].volumeName).Some? && HasVolume(vm, e.sources[i].volumeName) {
        assert MovedBy(vm, t, e, i, j);
      }
    }
  }

  /** The rewrite, exactly, for any entry, later records winning over earlier ones: it fails if and only if the VM has
      no name or something that moves has no destination; otherwise every volume and every template is prepared and
      nothing else of the VM changes. */
  lemma PrepareExactly(vm: VM, e: PlanVM)
    ensures Prepare(vm, e).Ok? ==>
      var vm' := Prepare(vm, e).value;
      && vm' == vm.(volumes := vm'.volumes, templates := vm'.templates) && vm.name != ""
      && |vm'.volumes| == |vm.volumes| && |vm'.templates| == |vm.templates|
      && (forall k :: 0 <= k < |vm.volumes| ==> VolumePrepared(vm.volumes[k], vm'.volumes[k], e.targets))
      && (forall k :: 0 <= k < |vm.templates| ==> TemplatePrepared(vm, vm.templates[k], vm'.templates[k], e))
    ensures Prepare(vm, e).Err? ==>
      || vm.name == ""
      || (exists k, i :: 0 <= k < |vm.volumes| && !vm.volumes[k].source.OtherSource? && LastTargetAt(e.targets, vm.volumes[k].name, i) && e.targets[i].destination.None?)
      || (exists k, i, j :: 0 <= k < |vm.templates| && MovedBy(vm, vm.templates[k], e, i, j) && e.targets[j].destination.None?)
  {
    forall k | 0 <= k < |vm.volumes|
      ensures RewriteVolume(vm.volumes[k], e.targets).Ok? ==> VolumePrepared(vm.volumes[k], RewriteVolume(vm.volumes[k], e.targets).value, e.targets)
      ensures RewriteVolume(vm.volumes[k], e.targets).Err? ==> !vm.volumes[k].source.OtherSource? && exists i :: LastTargetAt(e.targets, vm.volumes[k].name, i) && e.targets[i].destination.None?
    {
      VolumePreparedBy(vm.volumes[k], e.targets);
    }
    forall k | 0 <= k < |vm.templates|
      ensures RewriteTemplate(vm.templates[k], vm, e).Ok? ==> TemplatePrepared(vm, vm.templates[k], RewriteTemplate(vm.templates[k], vm, e).value, e)
      ensures RewriteTemplate(vm.templates[k], vm, e).Err? ==> exists i, j :: MovedBy(vm, vm.templates[k], e, i, j) && e.targets[j].destination.None?
    {
      TemplatePreparedBy(vm, vm.templates[k], e);
    }
  }

  // ----- recoverCorruptedSourcePVCs -----

  /** The k-th migrated volume is the first with that destination whose source is known. */
  predicate FirstKnownMove(migrated: seq<MigratedVolume>, claim: string, k: int) {
    && 0 <= k < |migrated| && migrated[k].destination == Some(claim) && migrated[k].source.Some?
    && forall j :: 0 <= j < k ==> migrated[j].destination != Some(claim) || migrated[j].source.None?
  }

  lemma {:induction false} UpdateStateIff(migrated: seq<MigratedVolume>, claim: string) returns (k: int)
    ensures
      var r := SourceFromUpdateState(migrated, claim);
      || (FirstKnownMove(migrated, claim, k) && migrated[k].source == Some(r))
      || (r == "" && forall j :: 0 <= j < |migrated| ==> migrated[j].destination != Some(claim) || migrated[j].source.None?)
  {
    k := 0;
    if migrated != [] && !(migrated[0].destination == Some(claim) && migrated[0].source.Some?) {
      k := UpdateStateIff(migrated[1..], claim);
      assert forall j :: 0 < j < |migrated| ==> migrated[j] == migrated[1..][j - 1];
      k := k + 1;
    }
  }

  lemma OneFirstMove(migrated: seq<MigratedVolume>, claim: string)
    ensures forall k, l :: FirstKnownMove(migrated, claim, k) && FirstKnownMove(migrated, claim, l) ==> k == l
  {
  }

  /** KubeVirt remembers a named source for the claim. */
  predicate Remembered(migrated: seq<MigratedVolume>, claim: string, source: string) {
    source != "" && exists k :: 0 <= k < |migrated| && FirstKnownMove(migrated, claim, k) && migrated[k].source == Some(source)
  }

  /** A source was overwritten with its own destination. */
  predicate Corrupted(e: PlanVM, i: nat)
    requires i < |e.sources| && i < |e.targets|
  {
    e.targets[i].destination == Some(e.sources[i].name)
  }

  /** The recovery, exactly: it fails if and only if the lists differ in length or some overwritten source is not
      remembered; otherwise overwritten sources become the remembered ones and nothing else changes. */
  lemma RecoverExactly(vm: VM, e: PlanVM)
    ensures Recover(vm, e).Ok? <==>
      && |e.sources| == |e.targets|
      && forall i :: 0 <= i < |e.sources| && Corrupted(e, i) ==> exists s :: Remembered(vm.migrated, e.sources[i].name, s)
    ensures Recover(vm, e).Ok? ==>
      var e' := Recover(vm, e).value;
      && e' == e.(sources := e'.sources) && |e'.sources| == |e.sources|
      && forall i :: 0 <= i < |e.sources| ==>
           if Corrupted(e, i) then e'.sources[i] == e.sources[i].(name := e'.sources[i].name) && Remembered(vm.migrated, e.sources[i].name, e'.sources[i].name)
           else e'.sources[i] == e.sources[i]
  {
    if |e.sources| == |e.targets| {
      forall i | 0 <= i < |e.sources|
        ensures RecoverSource(vm, e.sources[i], e.targets[i]).Ok? <==> (Corrupted(e, i) ==> exists s :: Remembered(vm.migrated, e.sources[i].name, s))
        ensures RecoverSource(vm, e.sources[i], e.targets[i]).Ok? && Corrupted(e, i) ==>
          Remembered(vm.migrated, e.sources[i].name, RecoverSource(vm, e.sources[i], e.targets[i]).value.name)
      {
        RememberedIff(vm.migrated, e.sources[i].name);
        var r := SourceFromUpdateState(vm.migrated, e.sources[i].name);
        assert Remembered(vm.migrated, e.sources[i].name, r) <==> r != "";
      }
    }
  }

  lemma RememberedIff(migrated: seq<MigratedVolume>, claim: string)
    ensures
      var r := SourceFromUpdateState(migrated, claim);
      forall s :: Remembered(migrated, claim, s) <==> s == r && r != ""
  {
    var k := UpdateStateIff(migrated, claim);
    OneFirstMove(migrated, claim);
  }

  // ----- revertPlanVolumes -----

  /** Reverting is its own inverse, for any entry: a second revert gives back the very entry, destinations that were
      missing and storage classes included. */
  lemma RevertIsInvolution(e: PlanVM)
    requires Revert(e).Ok?
    ensures Revert(Revert(e).value) == Ok(e)
  {
    var q := Revert(e).value;
    forall i | 0 <= i < |q.sources| ensures q.targets[i].destination != Some(q.sources[i].name) || e.targets[i].destination.None? {
      assert e.targets[i].destination != Some(e.sources[i].name);
    }
    var r := Revert(q);
    assert r.Ok?;
    assert r.value.sources == e.sources;
    assert r.value.targets == e.targets;
  }

  /** It exchanges names: each source gets its destination's name and each destination its source's; where there is no
      destination both stay. */
  lemma RevertExchanges(e: PlanVM, i: nat)
    requires Revert(e).Ok? && i < |e.sources|
    ensures
      var q := Revert(e).value;
      && q.name == e.name && |q.sources| == |q.targets| == |e.sources| == |e.targets|
      && (e.targets[i].destination.Some? ==> q.targets[i].destination == Some(e.sources[i].name) && Some(q.sources[i].name) == e.targets[i].destination)
      && (e.targets[i].destination.None? ==> q.targets[i] == e.targets[i] && q.sources[i] == e.sources[i])
      && q.sources[i] == e.sources[i].(name := q.sources[i].name) && q.targets[i] == e.targets[i].(destination := q.targets[i].destination)
  {
  }

  /** A cancelled VM is told to migrate its volumes. */
  lemma RevertMigrates(vm: VM, e: PlanVM)
    requires RevertedVM(vm, e).Ok?
    ensures RevertedVM(vm, e).value.strategy == Migration
    ensures
      var vm' := RevertedVM(vm, e).value;
      vm' == vm.(volumes := vm'.volumes, templates := vm'.templates, strategy := Migration)
  {
  }
}
