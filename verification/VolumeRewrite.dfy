/** Rewriting a VM's volumes onto the plan's destinations, and the inverse rewrite used to cancel. */
module VolumeRewrite {
  import opened Basics
  import opened Objects

  // ----- prepareVMForStorageMigration -----

  /** The target recorded for a volume; a later entry overwrites an earlier one, as in a Go map. */
  function TargetFor(targets: seq<TargetPVC>, volume: string): Option<TargetPVC> {
    if targets == [] then None
    else
      var last := targets[|targets| - 1];
      if last.volumeName == volume then Some(last) else TargetFor(targets[..|targets| - 1], volume)
  }

  /** The volume recorded for a source claim name; a later entry overwrites an earlier one. */
  function VolumeFor(sources: seq<SourcePVC>, name: string): Option<string> {
    if sources == [] then None
    else
      var last := sources[|sources| - 1];
      if last.name == name then Some(last.volumeName) else VolumeFor(sources[..|sources| - 1], name)
  }

  function Retarget(source: VolumeSource, claim: string): VolumeSource {
    match source
    case PVCSource(_) => PVCSource(claim)
    case DVSource(_) => DVSource(claim)
    case OtherSource => OtherSource
  }

  function SetClass(t: DVTemplate, class_: Option<string>): DVTemplate {
    if t.storage.Some? then t.(storage := Some(ClassRef(class_)))
    else if t.pvc.Some? then t.(pvc := Some(ClassRef(class_)))
    else t
  }

  function RewriteVolume(v: Volume, targets: seq<TargetPVC>): Result<Volume> {
    match TargetFor(targets, v.name)
    case None => Ok(v)
    case Some(t) =>
      if v.source.OtherSource? then Ok(v)
      else if t.destination.None? then Err
      else Ok(v.(source := Retarget(v.source, t.destination.value)))
  }

  function RewriteTemplate(t: DVTemplate, vm: VM, e: PlanVM): Result<DVTemplate> {
    match VolumeFor(e.sources, t.name)
    case None => Ok(t)
    case Some(volume) =>
      if !HasVolume(vm, volume) then Ok(t)
      else
        match TargetFor(e.targets, volume)
        case None => Ok(t)
        case Some(target) =>
          if target.destination.None? then Err
          else Ok(SetClass(t.(name := target.destination.value), target.storageClass))
  }

  /** Every volume and template is rewritten on its own; a missing destination name fails the whole. */
  function Prepare(vm: VM, e: PlanVM): Result<VM> {
    if vm.name == "" then Err
    else if exists k :: 0 <= k < |vm.volumes| && RewriteVolume(vm.volumes[k], e.targets).Err? then Err
    else if exists k :: 0 <= k < |vm.templates| && RewriteTemplate(vm.templates[k], vm, e).Err? then Err
    else Ok(vm.(
      volumes := seq(|vm.volumes|, k requires 0 <= k < |vm.volumes| => RewriteVolume(vm.volumes[k], e.targets).value),
      templates := seq(|vm.templates|, k requires 0 <= k < |vm.templates| => RewriteTemplate(vm.templates[k], vm, e).value)))
  }

  method TargetsByVolume(targets: seq<TargetPVC>) returns (m: map<string, TargetPVC>)
    ensures forall v :: v in m <==> TargetFor(targets, v).Some?
    ensures forall v :: v in m ==> TargetFor(targets, v) == Some(m[v])
  {
    m := map[];
    for i := 0 to |targets|
      invariant forall v :: v in m <==> TargetFor(targets[..i], v).Some?
      invariant forall v :: v in m ==> TargetFor(targets[..i], v) == Some(m[v])
    {
      assert targets[..i + 1][..i] == targets[..i];
      m := m[targets[i].volumeName := targets[i]];
    }
    assert targets[..|targets|] == targets;
  }

  method VolumesBySource(sources: seq<SourcePVC>) returns (m: map<string, string>)
    ensures forall n :: n in m <==> VolumeFor(sources, n).Some?
    ensures forall n :: n in m ==> VolumeFor(sources, n) == Some(m[n])
  {
    m := map[];
    for i := 0 to |sources|
      invariant forall n :: n in m <==> VolumeFor(sources[..i], n).Some?
      invariant forall n :: n in m ==> VolumeFor(sources[..i], n) == Some(m[n])
    {
      assert sources[..i + 1][..i] == sources[..i];
      m := m[sources[i].name := sources[i].volumeName];
    }
    assert sources[..|sources|] == sources;
  }

  /** The loops of the controller: two maps are filled, then a copy of the VM is edited in place. */
  method PrepareVMForStorageMigration(vm: VM, e: PlanVM) returns (r: Result<VM>)
    ensures r == Prepare(vm, e)
  {
    if vm.name == "" {
      return Err;
    }
    var targetOf := TargetsByVolume(e.targets);
    var volumes := vm.volumes;
    var moved: set<string> := {};
    for i := 0 to |vm.volumes|
      invariant |volumes| == |vm.volumes| && volumes[i..] == vm.volumes[i..]
      invariant forall k :: 0 <= k < i ==> RewriteVolume(vm.volumes[k], e.targets) == Ok(volumes[k])
      invariant forall v :: v in moved <==> v in targetOf && exists k :: 0 <= k < i && vm.volumes[k].name == v
    {
      var volume := vm.volumes[i];
      if volume.name in targetOf {
        moved := moved + {volume.name};
        if !volume.source.OtherSource? {
          if targetOf[volume.name].destination.None? {
            assert RewriteVolume(vm.volumes[i], e.targets).Err?;
            return Err;
          }
          volumes := volumes[i := volume.(source := Retarget(volume.source, targetOf[volume.name].destination.value))];
        }
      }
    }
    var volumeOf := VolumesBySource(e.sources);
    var templates := vm.templates;
    for i := 0 to |vm.templates|
      invariant |templates| == |vm.templates| && templates[i..] == vm.templates[i..]
      invariant forall k :: 0 <= k < i ==> RewriteTemplate(vm.templates[k], vm, e) == Ok(templates[k])
    {
      var t := vm.templates[i];
      if t.name in volumeOf && volumeOf[t.name] in moved {
        var target := targetOf[volumeOf[t.name]];
        if target.destination.None? {
          assert RewriteTemplate(vm.templates[i], vm, e).Err?;
          return Err;
        }
        templates := templates[i := SetClass(t.(name := target.destination.value), target.storageClass)];
      }
    }
    r := Ok(vm.(volumes := volumes, templates := templates));
    assert volumes == Prepare(vm, e).value.volumes;
    assert templates == Prepare(vm, e).value.templates;
  }

  // ----- recoverCorruptedSourcePVCs and revertPlanVolumes -----

  /** First migrated volume whose destination is the claim and whose source is known; "" when none. */
  function SourceFromUpdateState(migrated: seq<MigratedVolume>, target: string): string {
    if migrated == [] then ""
    else if migrated[0].destination == Some(target) && migrated[0].source.Some? then migrated[0].source.value
    else SourceFromUpdateState(migrated[1..], target)
  }

  method SourceClaimFromVolumeUpdateState(vm: VM, target: string) returns (r: string)
    ensures r == SourceFromUpdateState(vm.migrated, target)
  {
    for i := 0 to |vm.migrated|
      invariant SourceFromUpdateState(vm.migrated, target) == SourceFromUpdateState(vm.migrated[i..], target)
    {
      var m := vm.migrated[i];
      if m.destination.None? || m.source.None? {
        continue;
      }
      if m.destination.value == target {
        return m.source.value;
      }
    }
    return "";
  }

  function RecoverSource(vm: VM, source: SourcePVC, target: TargetPVC): Result<SourcePVC> {
    if target.destination != Some(source.name) then Ok(source)
    else
      var recovered := SourceFromUpdateState(vm.migrated, source.name);
      if recovered == "" then Err else Ok(source.(name := recovered))
  }

  function Recover(vm: VM, e: PlanVM): Result<PlanVM> {
    if |e.sources| != |e.targets| then Err
    else if exists i :: 0 <= i < |e.sources| && RecoverSource(vm, e.sources[i], e.targets[i]).Err? then Err
    else Ok(e.(sources := seq(|e.sources|, i requires 0 <= i < |e.sources| => RecoverSource(vm, e.sources[i], e.targets[i]).value)))
  }

  method RecoverCorruptedSourcePVCs(vm: VM, e: PlanVM) returns (r: Result<PlanVM>)
    ensures r == Recover(vm, e)
  {
    if |e.sources| != |e.targets| {
      return Err;
    }
    var sources := e.sources;
    for i := 0 to |e.sources|
      invariant |sources| == |e.sources| && sources[i..] == e.sources[i..]
      invariant forall k :: 0 <= k < i ==> RecoverSource(vm, e.sources[k], e.targets[k]) == Ok(sources[k])
    {
      if e.targets[i].destination.None? {
        continue;
      }
      var targetName := e.targets[i].destination.value;
      if e.sources[i].name != targetName {
        continue;
      }
      var recovered := SourceClaimFromVolumeUpdateState(vm, targetName);
      if recovered == "" {
        assert RecoverSource(vm, e.sources[i], e.targets[i]).Err?;
        return Err;
      }
      sources := sources[i := e.sources[i].(name := recovered)];
    }
    r := Ok(e.(sources := sources));
    assert sources == Recover(vm, e).value.sources;
  }

  /** Targets become the current names and recorded sources the destinations; unnamed targets are skipped. */
  function Revert(e: PlanVM): Result<PlanVM> {
    if |e.sources| != |e.targets| then Err
    else if exists i :: 0 <= i < |e.sources| && e.targets[i].destination == Some(e.sources[i].name) then Err
    else Ok(e.(
      sources := seq(|e.sources|, i requires 0 <= i < |e.sources| =>
        if e.targets[i].destination.None? then e.sources[i] else e.sources[i].(name := e.targets[i].destination.value)),
      targets := seq(|e.sources|, i requires 0 <= i < |e.sources| =>
        if e.targets[i].destination.None? then e.targets[i] else e.targets[i].(destination := Some(e.sources[i].name)))))
  }

  method RevertPlanVolumes(e: PlanVM) returns (r: Result<PlanVM>)
    ensures r == Revert(e)
  {
    if |e.sources| != |e.targets| {
      return Err;
    }
    var q := e;
    for i := 0 to |e.sources|
      invariant q.name == e.name && |q.sources| == |q.targets| == |e.sources|
      invariant q.sources[i..] == e.sources[i..] && q.targets[i..] == e.targets[i..]
      invariant forall k :: 0 <= k < i ==> e.targets[k].destination != Some(e.sources[k].name)
      invariant forall k :: 0 <= k < i ==> q.sources[k] == if e.targets[k].destination.None? then e.sources[k] else e.sources[k].(name := e.targets[k].destination.value)
      invariant forall k :: 0 <= k < i ==> q.targets[k] == if e.targets[k].destination.None? then e.targets[k] else e.targets[k].(destination := Some(e.sources[k].name))
    {
      if e.targets[i].destination.None? {
        continue;
      }
      var sourceName := q.sources[i].name;
      var targetName := e.targets[i].destination.value;
      if sourceName == targetName {
        return Err;
      }
      q := q.(sources := q.sources[i := q.sources[i].(name := targetName)],
              targets := q.targets[i := q.targets[i].(destination := Some(sourceName))]);
    }
    r := Ok(q);
    assert q.sources == Revert(e).value.sources && q.targets == Revert(e).value.targets;
  }

  /** What cancelLiveMigration writes back for a VM whose plan entry is `e`. */
  function RevertedVM(vm: VM, e: PlanVM): Result<VM> {
    match Recover(vm, e)
    case Err => Err
    case Ok(recovered) =>
      match Revert(recovered)
      case Err => Err
      case Ok(q) =>
        match Prepare(vm, q)
        case Err => Err
        case Ok(vm') => Ok(vm'.(strategy := Migration))
  }

  // ----- Routes: what an index-aligned plan entry says -----

  datatype Route = Route(volume: string, source: string, destination: string)

  /** Sources and targets describe the same volumes, index by index, and every destination is named. */
  predicate Aligned(e: PlanVM) {
    && |e.sources| == |e.targets|
    && forall i :: 0 <= i < |e.targets| ==> e.targets[i].destination.Some? && e.sources[i].volumeName == e.targets[i].volumeName
  }

  function Routes(e: PlanVM): seq<Route>
    requires Aligned(e)
  {
    seq(|e.targets|, i requires 0 <= i < |e.targets| =>
      Route(e.targets[i].volumeName, e.sources[i].name, e.targets[i].destination.value))
  }

  function Flip(rs: seq<Route>): seq<Route> {
    seq(|rs|, i requires 0 <= i < |rs| => Route(rs[i].volume, rs[i].destination, rs[i].source))
  }

  predicate DistinctRoutes(rs: seq<Route>) {
    forall i, j :: 0 <= i < j < |rs| ==>
      rs[i].volume != rs[j].volume && rs[i].source != rs[j].source && rs[i].destination != rs[j].destination
  }

  predicate Disjoint(rs: seq<Route>) {
    forall i, j :: 0 <= i < |rs| && 0 <= j < |rs| ==> rs[i].source != rs[j].destination
  }

  lemma FlipDistinct(rs: seq<Route>)
    requires DistinctRoutes(rs)
    ensures DistinctRoutes(Flip(rs)) && Flip(Flip(rs)) == rs && (Disjoint(rs) ==> Disjoint(Flip(rs)))
  {
    forall i, j | 0 <= i < j < |rs|
      ensures Flip(rs)[i].volume != Flip(rs)[j].volume && Flip(rs)[i].source != Flip(rs)[j].source && Flip(rs)[i].destination != Flip(rs)[j].destination
    {
      assert rs[i].volume != rs[j].volume;
    }
  }

  lemma {:induction false} TargetForAt(targets: seq<TargetPVC>, volume: string)
    ensures TargetFor(targets, volume).None? <==> forall i :: 0 <= i < |targets| ==> targets[i].volumeName != volume
    ensures TargetFor(targets, volume).Some? ==> TargetFor(targets, volume).value in targets && TargetFor(targets, volume).value.volumeName == volume
  {
    if targets != [] {
      TargetForAt(targets[..|targets| - 1], volume);
    }
  }

  lemma {:induction false} VolumeForAt(sources: seq<SourcePVC>, name: string)
    ensures VolumeFor(sources, name).None? <==> forall i :: 0 <= i < |sources| ==> sources[i].name != name
    ensures VolumeFor(sources, name).Some? ==> exists i :: 0 <= i < |sources| && sources[i].name == name && VolumeFor(sources, name) == Some(sources[i].volumeName)
  {
    if sources != [] {
      VolumeForAt(sources[..|sources| - 1], name);
    }
  }

  /** A VM rewritten along routes: planned volumes and the templates behind them move, nothing else does. */
  ghost predicate Rerouted(vm: VM, vm': VM, e: PlanVM)
    requires Aligned(e)
  {
    var rs := Routes(e);
    && vm' == vm.(volumes := vm'.volumes, templates := vm'.templates)
    && |vm'.volumes| == |vm.volumes| && |vm'.templates| == |vm.templates|
    && (forall k :: 0 <= k < |vm.volumes| ==> VolumeRerouted(vm.volumes[k], vm'.volumes[k], rs))
    && (forall k :: 0 <= k < |vm.templates| ==> TemplateRerouted(vm, vm.templates[k], vm'.templates[k], e))
  }

  ghost predicate VolumeRerouted(v: Volume, v': Volume, rs: seq<Route>) {
    && (forall i :: 0 <= i < |rs| && rs[i].volume == v.name ==> v' == v.(source := Retarget(v.source, rs[i].destination)))
    && ((forall i :: 0 <= i < |rs| ==> rs[i].volume != v.name) ==> v' == v)
  }

  /** The route, present in the VM's volumes, whose source the template carries. */
  ghost predicate Moves(vm: VM, t: DVTemplate, r: Route) {
    t.name == r.source && HasVolume(vm, r.volume)
  }

  ghost predicate TemplateRerouted(vm: VM, t: DVTemplate, t': DVTemplate, e: PlanVM)
    requires Aligned(e)
  {
    var rs := Routes(e);
    && (forall i :: 0 <= i < |rs| && Moves(vm, t, rs[i]) ==> t' == SetClass(t.(name := rs[i].destination), e.targets[i].storageClass))
    && ((forall i :: 0 <= i < |rs| ==> !Moves(vm, t, rs[i])) ==> t' == t)
  }

  lemma TargetOfRoute(e: PlanVM, i: nat)
    requires Aligned(e) && DistinctRoutes(Routes(e)) && i < |e.targets|
    ensures TargetFor(e.targets, Routes(e)[i].volume) == Some(e.targets[i])
  {
    TargetForAt(e.targets, Routes(e)[i].volume);
    var j :| 0 <= j < |e.targets| && e.targets[j] == TargetFor(e.targets, Routes(e)[i].volume).value;
    assert Routes(e)[j].volume == Routes(e)[i].volume;
  }

  lemma VolumeOfRoute(e: PlanVM, i: nat)
    requires Aligned(e) && DistinctRoutes(Routes(e)) && i < |e.sources|
    ensures VolumeFor(e.sources, Routes(e)[i].source) == Some(Routes(e)[i].volume)
  {
    VolumeForAt(e.sources, Routes(e)[i].source);
    var j :| 0 <= j < |e.sources| && e.sources[j].name == Routes(e)[i].source && VolumeFor(e.sources, Routes(e)[i].source) == Some(e.sources[j].volumeName);
    assert Routes(e)[j].source == Routes(e)[i].source;
  }

  lemma TemplateEffect(vm: VM, t: DVTemplate, e: PlanVM)
    requires Aligned(e) && DistinctRoutes(Routes(e))
    ensures RewriteTemplate(t, vm, e).Ok? && TemplateRerouted(vm, t, RewriteTemplate(t, vm, e).value, e)
  {
    var rs := Routes(e);
    if i :| 0 <= i < |rs| && rs[i].source == t.name {
      VolumeOfRoute(e, i);
      TargetOfRoute(e, i);
      assert forall j :: 0 <= j < |rs| && rs[j].source == t.name ==> j == i;
    } else {
      VolumeForAt(e.sources, t.name);
      assert forall i :: 0 <= i < |e.sources| ==> rs[i].source == e.sources[i].name;
    }
  }

  lemma VolumeEffect(v: Volume, e: PlanVM)
    requires Aligned(e) && DistinctRoutes(Routes(e))
    ensures RewriteVolume(v, e.targets).Ok? && VolumeRerouted(v, RewriteVolume(v, e.targets).value, Routes(e))
  {
    var rs := Routes(e);
    TargetForAt(e.targets, v.name);
    if TargetFor(e.targets, v.name).Some? {
      var j :| 0 <= j < |e.targets| && e.targets[j] == TargetFor(e.targets, v.name).value;
      assert rs[j].volume == v.name;
    } else {
      assert forall i :: 0 <= i < |rs| ==> rs[i].volume == e.targets[i].volumeName;
    }
  }

  /** Preparing a named VM with an aligned entry of distinct names always succeeds and moves exactly the routed names. */
  lemma PrepareReroutes(vm: VM, e: PlanVM)
    requires vm.name != "" && Aligned(e) && DistinctRoutes(Routes(e))
    ensures Prepare(vm, e).Ok? && Rerouted(vm, Prepare(vm, e).value, e)
  {
    forall k | 0 <= k < |vm.volumes|
      ensures RewriteVolume(vm.volumes[k], e.targets).Ok? && VolumeRerouted(vm.volumes[k], RewriteVolume(vm.volumes[k], e.targets).value, Routes(e))
    {
      VolumeEffect(vm.volumes[k], e);
    }
    forall k | 0 <= k < |vm.templates|
      ensures RewriteTemplate(vm.templates[k], vm, e).Ok? && TemplateRerouted(vm, vm.templates[k], RewriteTemplate(vm.templates[k], vm, e).value, e)
    {
      TemplateEffect(vm, vm.templates[k], e);
    }
  }

  /** Reverting an aligned entry flips its routes; it is refused exactly when some volume would stay in place. */
  lemma RevertFlips(e: PlanVM)
    requires Aligned(e)
    ensures Revert(e).Ok? <==> forall i :: 0 <= i < |Routes(e)| ==> Routes(e)[i].source != Routes(e)[i].destination
    ensures Revert(e).Ok? ==>
      var q := Revert(e).value;
      Aligned(q) && Routes(q) == Flip(Routes(e)) && q.name == e.name &&
      forall i :: 0 <= i < |e.targets| ==> q.targets[i].storageClass == e.targets[i].storageClass
  {
    forall i | 0 <= i < |Routes(e)|
      ensures e.targets[i].destination == Some(e.sources[i].name) <==> Routes(e)[i].source == Routes(e)[i].destination
    {}
    if Revert(e).Ok? {
      assert Routes(Revert(e).value) == Flip(Routes(e));
    } else {
      var i :| 0 <= i < |e.sources| && e.targets[i].destination == Some(e.sources[i].name);
      assert Routes(e)[i].source == Routes(e)[i].destination;
    }
  }

  // ----- Revert undoes migrate -----

  /** Every routed volume that carries a claim carries its route's source. */
  ghost predicate OnSources(vm: VM, rs: seq<Route>) {
    forall k, i :: 0 <= k < |vm.volumes| && 0 <= i < |rs| && vm.volumes[k].name == rs[i].volume && !vm.volumes[k].source.OtherSource?
      ==> ClaimName(vm.volumes[k]) == rs[i].source
  }

  /** A template already named like a routed destination is itself one of the templates that move. */
  ghost predicate NoStrayTemplate(vm: VM, rs: seq<Route>) {
    forall k, i :: 0 <= k < |vm.templates| && 0 <= i < |rs| && vm.templates[k].name == rs[i].destination && HasVolume(vm, rs[i].volume)
      ==> exists m :: 0 <= m < |rs| && Moves(vm, vm.templates[k], rs[m])
  }

  ghost predicate SameNames(vm: VM, vm': VM) {
    && vm'.volumes == vm.volumes
    && |vm'.templates| == |vm.templates|
    && forall k :: 0 <= k < |vm.templates| ==> vm'.templates[k].name == vm.templates[k].name
  }

  lemma SameVolumesRerouted(vm: VM, vm': VM, e: PlanVM)
    requires Aligned(e) && Rerouted(vm, vm', e)
    ensures forall v :: HasVolume(vm, v) <==> HasVolume(vm', v)
  {
    forall k | 0 <= k < |vm.volumes| ensures vm'.volumes[k].name == vm.volumes[k].name {
      var rs := Routes(e);
      assert VolumeRerouted(vm.volumes[k], vm'.volumes[k], rs);
      if i :| 0 <= i < |rs| && rs[i].volume == vm.volumes[k].name {}
    }
  }

  lemma VolumeRoundTrip(v: Volume, v1: Volume, v2: Volume, rs: seq<Route>)
    requires DistinctRoutes(rs)
    requires VolumeRerouted(v, v1, rs) && VolumeRerouted(v1, v2, Flip(rs))
    ensures v2 == v <==> forall i :: 0 <= i < |rs| && rs[i].volume == v.name && !v.source.OtherSource? ==> ClaimName(v) == rs[i].source
  {
    var fs := Flip(rs);
    if i :| 0 <= i < |rs| && rs[i].volume == v.name {
      assert v1 == v.(source := Retarget(v.source, rs[i].destination));
      assert fs[i].volume == v1.name;
      assert v2 == v1.(source := Retarget(v1.source, rs[i].source));
    } else {
      assert forall i :: 0 <= i < |fs| ==> fs[i].volume == rs[i].volume;
    }
  }

  /** A name moves with the route, among those whose volume is present, that starts from it. */
  ghost predicate NameMoves(present: set<string>, n: string, r: Route) {
    n == r.source && r.volume in present
  }

  ghost predicate NameRerouted(present: set<string>, n: string, n': string, rs: seq<Route>) {
    && (forall i :: 0 <= i < |rs| && NameMoves(present, n, rs[i]) ==> n' == rs[i].destination)
    && ((forall i :: 0 <= i < |rs| ==> !NameMoves(present, n, rs[i])) ==> n' == n)
  }

  lemma NameRoundTrip(present: set<string>, n: string, n1: string, n2: string, rs: seq<Route>)
    requires forall i :: 0 <= i < |rs| ==> rs[i].source != rs[i].destination
    requires NameRerouted(present, n, n1, rs) && NameRerouted(present, n1, n2, Flip(rs))
    ensures n2 == n <==>
      forall i :: 0 <= i < |rs| && n == rs[i].destination && rs[i].volume in present ==> exists m :: 0 <= m < |rs| && NameMoves(present, n, rs[m])
  {
    var fs := Flip(rs);
    if m :| 0 <= m < |rs| && NameMoves(present, n, rs[m]) {
      assert NameMoves(present, n1, fs[m]);
    } else {
      assert n1 == n;
      if i :| 0 <= i < |rs| && n == rs[i].destination && rs[i].volume in present {
        assert NameMoves(present, n1, fs[i]);
      } else {
        forall i | 0 <= i < |fs| ensures !NameMoves(present, n1, fs[i]) {
          assert fs[i].source == rs[i].destination && fs[i].volume == rs[i].volume;
        }
      }
    }
  }

  function VolumeSet(vm: VM): set<string> {
    SetOf(VolumeNames(vm.volumes))
  }

  lemma VolumeSetHas(vm: VM, v: string)
    ensures v in VolumeSet(vm) <==> HasVolume(vm, v)
  {
    if HasVolume(vm, v) {
      var i :| 0 <= i < |vm.volumes| && vm.volumes[i].name == v;
      assert VolumeNames(vm.volumes)[i] == v;
    }
  }

  lemma TemplateNameRerouted(vm: VM, present: set<string>, t: DVTemplate, t': DVTemplate, e: PlanVM)
    requires Aligned(e) && TemplateRerouted(vm, t, t', e) && forall v :: v in present <==> HasVolume(vm, v)
    ensures NameRerouted(present, t.name, t'.name, Routes(e))
  {
    forall i | 0 <= i < |Routes(e)| ensures NameMoves(present, t.name, Routes(e)[i]) <==> Moves(vm, t, Routes(e)[i]) {
    }
  }

  lemma TemplateRoundTrip(vm: VM, vm1: VM, t: DVTemplate, t1: DVTemplate, t2: DVTemplate, e: PlanVM, q: PlanVM)
    requires Aligned(e) && Aligned(q) && Routes(q) == Flip(Routes(e))
    requires forall i :: 0 <= i < |Routes(e)| ==> Routes(e)[i].source != Routes(e)[i].destination
    requires forall v :: HasVolume(vm, v) <==> HasVolume(vm1, v)
    requires TemplateRerouted(vm, t, t1, e) && TemplateRerouted(vm1, t1, t2, q)
    ensures t2.name == t.name <==>
      forall i :: 0 <= i < |Routes(e)| && t.name == Routes(e)[i].destination && HasVolume(vm, Routes(e)[i].volume)
        ==> exists m :: 0 <= m < |Routes(e)| && Moves(vm, t, Routes(e)[m])
  {
    var rs, present := Routes(e), VolumeSet(vm);
    forall v ensures v in present <==> HasVolume(vm, v) {
      VolumeSetHas(vm, v);
    }
    TemplateNameRerouted(vm, present, t, t1, e);
    TemplateNameRerouted(vm1, present, t1, t2, q);
    NameRoundTrip(present, t.name, t1.name, t2.name, rs);
    assert forall m :: 0 <= m < |rs| ==> (NameMoves(present, t.name, rs[m]) <==> Moves(vm, t, rs[m]));
  }

  /** The cancel rewrite undoes the migrate rewrite exactly when the VM was on its recorded sources and
      no template that stays behind already carries a destination name. */
  lemma RevertUndoesPrepare(vm: VM, e: PlanVM)
    requires vm.name != "" && Aligned(e) && DistinctRoutes(Routes(e))
    requires forall i :: 0 <= i < |Routes(e)| ==> Routes(e)[i].source != Routes(e)[i].destination
    ensures Prepare(vm, e).Ok? && Revert(e).Ok? && Prepare(Prepare(vm, e).value, Revert(e).value).Ok?
    ensures
      SameNames(vm, Prepare(Prepare(vm, e).value, Revert(e).value).value) <==>
      OnSources(vm, Routes(e)) && NoStrayTemplate(vm, Routes(e))
  {
    var rs := Routes(e);
    PrepareReroutes(vm, e);
    RevertFlips(e);
    var vm1, q := Prepare(vm, e).value, Revert(e).value;
    FlipDistinct(rs);
    PrepareReroutes(vm1, q);
    var vm2 := Prepare(vm1, q).value;
    SameVolumesRerouted(vm, vm1, e);
    forall k | 0 <= k < |vm.volumes|
      ensures vm2.volumes[k] == vm.volumes[k] <==>
        forall i :: 0 <= i < |rs| && rs[i].volume == vm.volumes[k].name && !vm.volumes[k].source.OtherSource? ==> ClaimName(vm.volumes[k]) == rs[i].source
    {
      VolumeRoundTrip(vm.volumes[k], vm1.volumes[k], vm2.volumes[k], rs);
    }
    forall k | 0 <= k < |vm.templates|
      ensures vm2.templates[k].name == vm.templates[k].name <==>
        forall i :: 0 <= i < |rs| && vm.templates[k].name == rs[i].destination && HasVolume(vm, rs[i].volume)
          ==> exists m :: 0 <= m < |rs| && Moves(vm, vm.templates[k], rs[m])
    {
      TemplateRoundTrip(vm, vm1, vm.templates[k], vm1.templates[k], vm2.templates[k], e, q);
    }
    assert vm2.volumes == vm.volumes <==> forall k :: 0 <= k < |vm.volumes| ==> vm2.volumes[k] == vm.volumes[k];
  }

  /** The storage class a template asks for: Some(None) when it leaves the choice open, None when it has no place for one. */
  function TemplateClass(t: DVTemplate): Option<Option<string>> {
    if t.storage.Some? then Some(t.storage.value.storageClass)
    else if t.pvc.Some? then Some(t.pvc.value.storageClass)
    else None
  }

  /** A template that moved and came back has the destination's storage class, in spec.storage or else in spec.pvc;
      so it is restored altogether if and only if it asked for that class before or has no place for one. */
  lemma RevertKeepsDestinationClass(vm: VM, e: PlanVM, k: nat, i: nat)
    requires vm.name != "" && Aligned(e) && DistinctRoutes(Routes(e)) && Revert(e).Ok?
    requires k < |vm.templates| && i < |Routes(e)| && Moves(vm, vm.templates[k], Routes(e)[i])
    ensures
      var vm1 := Prepare(vm, e);
      vm1.Ok? &&
      var vm2 := Prepare(vm1.value, Revert(e).value);
      vm2.Ok? && k < |vm2.value.templates| &&
      var t, t2 := vm.templates[k], vm2.value.templates[k];
      && t2 == (if t.storage.Some? then t.(storage := Some(ClassRef(e.targets[i].storageClass)))
                else if t.pvc.Some? then t.(pvc := Some(ClassRef(e.targets[i].storageClass)))
                else t)
      && (t2 == t <==> TemplateClass(t).None? || TemplateClass(t).value == e.targets[i].storageClass)
  {
    RevertFlips(e);
    RevertUndoesPrepare(vm, e);
    PrepareReroutes(vm, e);
    var vm1, q := Prepare(vm, e).value, Revert(e).value;
    FlipDistinct(Routes(e));
    SameVolumesRerouted(vm, vm1, e);
    PrepareReroutes(vm1, q);
    assert TemplateRerouted(vm, vm.templates[k], vm1.templates[k], e);
    assert Moves(vm1, vm1.templates[k], Routes(q)[i]);
    assert TemplateRerouted(vm1, vm1.templates[k], Prepare(vm1, q).value.templates[k], q);
  }

  lemma TemplateMovesOnce(vm: VM, vm1: VM, t: DVTemplate, t1: DVTemplate, t2: DVTemplate, e: PlanVM)
    requires Aligned(e) && Disjoint(Routes(e))
    requires forall v :: HasVolume(vm, v) <==> HasVolume(vm1, v)
    requires TemplateRerouted(vm, t, t1, e) && TemplateRerouted(vm1, t1, t2, e)
    ensures t2 == t1
  {
    var rs := Routes(e);
    if m :| 0 <= m < |rs| && Moves(vm, t, rs[m]) {
      assert t1.name == rs[m].destination;
      assert forall i :: 0 <= i < |rs| ==> !Moves(vm1, t1, rs[i]);
    } else {
      assert t1 == t;
      assert forall i :: 0 <= i < |rs| ==> !Moves(vm1, t1, rs[i]);
    }
  }

  lemma VolumeMovesOnce(v: Volume, v1: Volume, v2: Volume, rs: seq<Route>)
    requires VolumeRerouted(v, v1, rs) && VolumeRerouted(v1, v2, rs)
    ensures v2 == v1
  {
    if i :| 0 <= i < |rs| && rs[i].volume == v.name {}
  }

  /** When no source is also a destination, applying the same rewrite twice is applying it once. */
  lemma PrepareIdempotent(vm: VM, e: PlanVM)
    requires vm.name != "" && Aligned(e) && DistinctRoutes(Routes(e)) && Disjoint(Routes(e))
    ensures Prepare(vm, e).Ok? && Prepare(Prepare(vm, e).value, e) == Prepare(vm, e)
  {
    PrepareReroutes(vm, e);
    var vm1 := Prepare(vm, e).value;
    SameVolumesRerouted(vm, vm1, e);
    PrepareReroutes(vm1, e);
    var vm2 := Prepare(vm1, e).value;
    ReroutedTwice(vm, vm1, vm2, e);
  }

  lemma ReroutedTwice(vm: VM, vm1: VM, vm2: VM, e: PlanVM)
    requires Aligned(e) && Disjoint(Routes(e)) && Rerouted(vm, vm1, e) && Rerouted(vm1, vm2, e)
    requires forall v :: HasVolume(vm, v) <==> HasVolume(vm1, v)
    ensures vm2 == vm1
  {
    forall k | 0 <= k < |vm.volumes| ensures vm2.volumes[k] == vm1.volumes[k] {
      VolumeMovesOnce(vm.volumes[k], vm1.volumes[k], vm2.volumes[k], Routes(e));
    }
    forall k | 0 <= k < |vm.templates| ensures vm2.templates[k] == vm1.templates[k] {
      TemplateMovesOnce(vm, vm1, vm.templates[k], vm1.templates[k], vm2.templates[k], e);
    }
    assert vm2.volumes == vm1.volumes && vm2.templates == vm1.templates;
  }

  // ----- Corruption-tolerant revert -----

  /** The claim a volume came from: as recorded, or as KubeVirt remembers it when the record was overwritten. */
  function OriginalSource(vm: VM, source: SourcePVC, target: TargetPVC): string {
    if target.destination == Some(source.name) then SourceFromUpdateState(vm.migrated, source.name) else source.name
  }

  /** Whenever the cancel rewrite succeeds, whatever subset of the recorded sources had been overwritten with
      destination names, each planned volume that carries a claim ends on its original source and off its destination. */
  lemma RevertToleratesCorruption(vm: VM, e: PlanVM, k: nat, i: nat)
    requires RevertedVM(vm, e).Ok?
    requires forall a, b :: 0 <= a < b < |e.targets| ==> e.targets[a].volumeName != e.targets[b].volumeName
    requires k < |vm.volumes| && i < |e.targets| && vm.volumes[k].name == e.targets[i].volumeName
    ensures |e.sources| == |e.targets| && |RevertedVM(vm, e).value.volumes| == |vm.volumes|
    ensures vm.volumes[k].source.OtherSource? ==> RevertedVM(vm, e).value.volumes[k] == vm.volumes[k]
    ensures !vm.volumes[k].source.OtherSource? ==>
      var claim := ClaimName(RevertedVM(vm, e).value.volumes[k]);
      claim == OriginalSource(vm, e.sources[i], e.targets[i]) && e.targets[i].destination.Some? && claim != e.targets[i].destination.value
  {
    var recovered := Recover(vm, e).value;
    var q := Revert(recovered).value;
    assert RecoverSource(vm, e.sources[i], e.targets[i]) == Ok(recovered.sources[i]);
    assert recovered.targets[i].destination != Some(recovered.sources[i].name);
    TargetForAt(q.targets, vm.volumes[k].name);
    assert q.targets[i].volumeName == vm.volumes[k].name;
    var j :| 0 <= j < |q.targets| && q.targets[j] == TargetFor(q.targets, vm.volumes[k].name).value;
    assert e.targets[j].volumeName == q.targets[j].volumeName;
    assert RewriteVolume(vm.volumes[k], q.targets).Ok?;
    assert Prepare(vm, q).value.volumes[k] == RewriteVolume(vm.volumes[k], q.targets).value;
  }
}
