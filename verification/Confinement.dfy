/** Which VM may name which planned claim: the invariant behind every claim-deletion argument. */
module Confinement {
  import opened Basics
  import opened Objects
  import opened VolumeRewrite

  /** The plan's recorded moves, per VM name. */
  type Table = map<string, seq<Route>>

  ghost predicate IsReserved(table: Table, claim: string) {
    exists n, i :: n in table && 0 <= i < |table[n]| && (claim == table[n][i].source || claim == table[n][i].destination)
  }

  /** Volume names are distinct within a VM; source and destination names are distinct across the whole plan. */
  ghost predicate WellFormed(table: Table) {
    && (forall n :: n in table ==> DistinctRoutes(table[n]))
    && (forall n, i :: n in table && 0 <= i < |table[n]| ==> table[n][i].source != "" && table[n][i].destination != "")
    && (forall n, m, i, j :: n in table && m in table && 0 <= i < |table[n]| && 0 <= j < |table[m]| ==>
          table[n][i].source != table[m][j].destination)
    && (forall n, m, i, j :: n in table && m in table && n != m && 0 <= i < |table[n]| && 0 <= j < |table[m]| ==>
          table[n][i].source != table[m][j].source && table[n][i].destination != table[m][j].destination)
  }

  function RoutesOf(table: Table, name: string): seq<Route> {
    if name in table then table[name] else []
  }

  ghost predicate OnRoute(claim: string, r: Route) {
    claim == r.source || claim == r.destination
  }

  /** A VM names planned claims only through its own routes. */
  ghost predicate Confined(vm: VM, rs: seq<Route>, table: Table) {
    && (forall k :: 0 <= k < |vm.volumes| && IsReserved(table, ClaimName(vm.volumes[k])) ==>
          exists i :: 0 <= i < |rs| && rs[i].volume == vm.volumes[k].name && OnRoute(ClaimName(vm.volumes[k]), rs[i]))
    && (forall k :: 0 <= k < |vm.templates| && IsReserved(table, vm.templates[k].name) ==>
          exists i :: 0 <= i < |rs| && HasVolume(vm, rs[i].volume) && OnRoute(vm.templates[k].name, rs[i]))
  }

  ghost predicate ConfinedVMs(vms: map<string, VM>, table: Table) {
    forall n :: n in vms ==> n != "" && vms[n].name == n && Confined(vms[n], RoutesOf(table, n), table)
  }

  ghost predicate OffSources(vm: VM, rs: seq<Route>) {
    forall i :: 0 <= i < |rs| ==> !References(vm, rs[i].source)
  }

  ghost predicate OffTargets(vm: VM, rs: seq<Route>) {
    forall i :: 0 <= i < |rs| ==> !References(vm, rs[i].destination)
  }

  lemma ConfinedFlip(vm: VM, rs: seq<Route>, table: Table)
    requires Confined(vm, rs, table)
    ensures Confined(vm, Flip(rs), table)
  {
    var fs := Flip(rs);
    forall k | 0 <= k < |vm.volumes| && IsReserved(table, ClaimName(vm.volumes[k]))
      ensures exists i :: 0 <= i < |fs| && fs[i].volume == vm.volumes[k].name && OnRoute(ClaimName(vm.volumes[k]), fs[i])
    {
      var i :| 0 <= i < |rs| && rs[i].volume == vm.volumes[k].name && OnRoute(ClaimName(vm.volumes[k]), rs[i]);
      assert fs[i].volume == vm.volumes[k].name;
    }
    forall k | 0 <= k < |vm.templates| && IsReserved(table, vm.templates[k].name)
      ensures exists i :: 0 <= i < |fs| && HasVolume(vm, fs[i].volume) && OnRoute(vm.templates[k].name, fs[i])
    {
      var i :| 0 <= i < |rs| && HasVolume(vm, rs[i].volume) && OnRoute(vm.templates[k].name, rs[i]);
      assert HasVolume(vm, fs[i].volume);
    }
  }

  /** What a rewrite along `rs` needs of the table: the routes are its own, distinct, disjoint and named. */
  ghost predicate GoodRoutes(rs: seq<Route>, table: Table) {
    && DistinctRoutes(rs) && Disjoint(rs)
    && forall i :: 0 <= i < |rs| ==>
         rs[i].source != "" && rs[i].destination != "" && IsReserved(table, rs[i].source) && IsReserved(table, rs[i].destination)
  }

  lemma TableRoutesGood(table: Table, name: string)
    requires WellFormed(table)
    ensures GoodRoutes(RoutesOf(table, name), table) && GoodRoutes(Flip(RoutesOf(table, name)), table)
  {
    var rs := RoutesOf(table, name);
    FlipDistinct(rs);
    forall i | 0 <= i < |rs| ensures IsReserved(table, rs[i].source) && IsReserved(table, rs[i].destination) {
      assert name in table && table[name][i] == rs[i];
    }
  }

  lemma VolumeConfined(vm: VM, v: Volume, v': Volume, rs: seq<Route>, table: Table)
    requires GoodRoutes(rs, table) && VolumeRerouted(v, v', rs)
    requires IsReserved(table, ClaimName(v)) ==> exists i :: 0 <= i < |rs| && rs[i].volume == v.name && OnRoute(ClaimName(v), rs[i])
    ensures v'.name == v.name
    ensures IsReserved(table, ClaimName(v')) ==> exists i :: 0 <= i < |rs| && rs[i].volume == v'.name && OnRoute(ClaimName(v'), rs[i])
    ensures forall i :: 0 <= i < |rs| ==> ClaimName(v') != rs[i].source
  {
    if i :| 0 <= i < |rs| && rs[i].volume == v.name {
      assert v' == v.(source := Retarget(v.source, rs[i].destination));
      assert OnRoute(rs[i].destination, rs[i]);
    }
  }

  lemma TemplateConfined(vm: VM, t: DVTemplate, t': DVTemplate, e: PlanVM, table: Table)
    requires Aligned(e) && GoodRoutes(Routes(e), table) && TemplateRerouted(vm, t, t', e)
    requires IsReserved(table, t.name) ==> exists i :: 0 <= i < |Routes(e)| && HasVolume(vm, Routes(e)[i].volume) && OnRoute(t.name, Routes(e)[i])
    ensures IsReserved(table, t'.name) ==> exists i :: 0 <= i < |Routes(e)| && HasVolume(vm, Routes(e)[i].volume) && OnRoute(t'.name, Routes(e)[i])
    ensures forall i :: 0 <= i < |Routes(e)| ==> t'.name != Routes(e)[i].source
  {
    var rs := Routes(e);
    if m :| 0 <= m < |rs| && Moves(vm, t, rs[m]) {
      assert t'.name == rs[m].destination && OnRoute(t'.name, rs[m]);
    } else {
      assert t' == t;
      forall j | 0 <= j < |rs| && HasVolume(vm, rs[j].volume) && OnRoute(t.name, rs[j]) ensures t.name == rs[j].destination {
        assert !Moves(vm, t, rs[j]);
      }
    }
  }

  /** A rewrite keeps a VM confined and takes it off every source it had. */
  lemma RerouteKeepsConfined(vm: VM, vm': VM, e: PlanVM, table: Table)
    requires Aligned(e) && GoodRoutes(Routes(e), table)
    requires Rerouted(vm, vm', e) && Confined(vm, Routes(e), table)
    ensures Confined(vm', Routes(e), table) && OffSources(vm', Routes(e))
  {
    var rs := Routes(e);
    SameVolumesRerouted(vm, vm', e);
    forall k | 0 <= k < |vm.volumes|
      ensures IsReserved(table, ClaimName(vm'.volumes[k])) ==> exists i :: 0 <= i < |rs| && rs[i].volume == vm'.volumes[k].name && OnRoute(ClaimName(vm'.volumes[k]), rs[i])
      ensures forall i :: 0 <= i < |rs| ==> ClaimName(vm'.volumes[k]) != rs[i].source
    {
      VolumeConfined(vm, vm.volumes[k], vm'.volumes[k], rs, table);
    }
    forall k | 0 <= k < |vm.templates|
      ensures IsReserved(table, vm'.templates[k].name) ==> exists i :: 0 <= i < |rs| && HasVolume(vm', rs[i].volume) && OnRoute(vm'.templates[k].name, rs[i])
      ensures forall i :: 0 <= i < |rs| ==> vm'.templates[k].name != rs[i].source
    {
      TemplateConfined(vm, vm.templates[k], vm'.templates[k], e, table);
    }
  }

  /** Migrating a confined VM always rewrites it, keeps it confined and takes it off its sources. */
  lemma PrepareMovesOffSources(vm: VM, e: PlanVM, table: Table)
    requires vm.name != "" && Aligned(e) && WellFormed(table) && Routes(e) == RoutesOf(table, vm.name)
    requires Confined(vm, Routes(e), table)
    ensures Prepare(vm, e).Ok?
    ensures Confined(Prepare(vm, e).value, Routes(e), table) && OffSources(Prepare(vm, e).value, Routes(e))
    ensures Prepare(vm, e).value.name == vm.name
  {
    TableRoutesGood(table, vm.name);
    PrepareReroutes(vm, e);
    RerouteKeepsConfined(vm, Prepare(vm, e).value, e, table);
  }

  /** Cancelling a confined VM always rewrites it, keeps it confined and takes it off its destinations. */
  lemma RevertMovesOffTargets(vm: VM, e: PlanVM, table: Table)
    requires vm.name != "" && Aligned(e) && WellFormed(table) && Routes(e) == RoutesOf(table, vm.name)
    requires Confined(vm, Routes(e), table)
    ensures RevertedVM(vm, e).Ok?
    ensures Confined(RevertedVM(vm, e).value, Routes(e), table) && OffTargets(RevertedVM(vm, e).value, Routes(e))
    ensures RevertedVM(vm, e).value.name == vm.name
    ensures Revert(e).Ok? && Aligned(Revert(e).value) && Routes(Revert(e).value) == Flip(Routes(e))
    ensures Prepare(vm, Revert(e).value).Ok? && Rerouted(vm, Prepare(vm, Revert(e).value).value, Revert(e).value)
    ensures RevertedVM(vm, e).value == Prepare(vm, Revert(e).value).value.(strategy := Migration)
  {
    var rs := Routes(e);
    TableRoutesGood(table, vm.name);
    forall i | 0 <= i < |rs| ensures RecoverSource(vm, e.sources[i], e.targets[i]) == Ok(e.sources[i]) {
      assert rs[i].source != rs[i].destination;
    }
    assert Recover(vm, e).value.sources == e.sources;
    RevertFlips(e);
    var q := Revert(e).value;
    FlipDistinct(rs);
    PrepareReroutes(vm, q);
    var vm' := Prepare(vm, q).value;
    ConfinedFlip(vm, rs, table);
    RerouteKeepsConfined(vm, vm', q, table);
    ConfinedFlip(vm', Flip(rs), table);
    ConfinedStrategy(vm', rs, table);
    forall i | 0 <= i < |rs| ensures !References(vm', rs[i].destination) {
      assert Flip(rs)[i].source == rs[i].destination;
    }
  }

  lemma ConfinedStrategy(vm: VM, rs: seq<Route>, table: Table)
    requires Confined(vm, rs, table)
    ensures Confined(vm.(strategy := Migration), rs, table)
  {
    var vm' := vm.(strategy := Migration);
    assert forall v :: HasVolume(vm, v) ==> HasVolume(vm', v);
  }

  /** Only the VM that owns a route can name its claims. */
  lemma ClaimOwner(vms: map<string, VM>, table: Table, n: string, m: string, j: nat)
    requires WellFormed(table) && ConfinedVMs(vms, table)
    requires n in vms && m in table && j < |table[m]| && n != m
    ensures !References(vms[n], table[m][j].source) && !References(vms[n], table[m][j].destination)
  {
    var vm, rs := vms[n], RoutesOf(table, n);
    forall claim | OnRoute(claim, table[m][j]) ensures !References(vm, claim) {
      assert IsReserved(table, claim);
      forall i | 0 <= i < |rs| ensures !OnRoute(claim, rs[i]) {
        assert table[n][i] == rs[i];
      }
    }
    assert OnRoute(table[m][j].source, table[m][j]) && OnRoute(table[m][j].destination, table[m][j]);
  }

  /** A claim whose own VM is off it (or gone) is named by no VM at all. */
  lemma Unreferenced(vms: map<string, VM>, table: Table, m: string, j: nat, claim: string)
    requires WellFormed(table) && ConfinedVMs(vms, table)
    requires m in table && j < |table[m]| && OnRoute(claim, table[m][j])
    requires m in vms ==> !References(vms[m], claim)
    ensures forall n :: n in vms ==> !References(vms[n], claim)
  {
    forall n | n in vms ensures !References(vms[n], claim) {
      if n != m {
        ClaimOwner(vms, table, n, m, j);
      }
    }
  }
}
