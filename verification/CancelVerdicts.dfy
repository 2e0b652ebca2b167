/** Which VMs a cancel pass finds cancelled, in terms of the cluster's objects. */
module CancelVerdicts {
  import opened Basics
  import opened Objects
  import opened VolumeRewrite
  import opened ClusterApi
  import opened TaskSpec
  import opened PassEffects
  import opened WaitOutcome
  import opened SourceCleanup

  // ----- Cancelled, said of the objects -----

  /** A VMIM of the VM, made since the migration began, is in flight. */
  predicate Migrating(vmims: seq<VMIM>, name: string, created: nat) {
    exists k :: 0 <= k < |vmims| && vmims[k].vmiName == name && vmims[k].created >= created && vmims[k].phase != Succeeded && vmims[k].phase != Failed
  }

  /** A volume or a template of the VM names the claim. */
  predicate Names(vm: VM, claim: string) {
    || (exists k :: 0 <= k < |vm.volumes| && vm.volumes[k].source in {DVSource(claim), PVCSource(claim)})
    || (exists k :: 0 <= k < |vm.templates| && vm.templates[k].name == claim)
  }

  /** The k-th volume is the first with a claim among those the record speaks of: of that name, or any when it has none. */
  predicate CarrierAt(volumes: seq<Volume>, volume: string, k: int) {
    && 0 <= k < |volumes| && (volume == "" || volumes[k].name == volume) && ClaimName(volumes[k]) != ""
    && (volume != "" ==> forall j :: 0 <= j < k ==> volumes[j].name != volume || ClaimName(volumes[j]) == "")
  }

  ghost predicate CarriedBy(volumes: seq<Volume>, s: SourcePVC) {
    exists k :: CarrierAt(volumes, s.volumeName, k) && ClaimName(volumes[k]) == s.name
  }

  /** The VM is back: its entry records sources, it names no destination, and each source is on its volume. */
  ghost predicate IsBack(ctx: Context, vm: VM, name: string) {
    ctx.plan.Some? &&
    var entries := ctx.plan.value.ready + ctx.plan.value.inProgress;
    exists k :: FirstAt(entries, name, k) && BackFor(vm, entries[k])
  }

  ghost predicate BackFor(vm: VM, e: PlanVM) {
    && e.sources != []
    && (forall i :: 0 <= i < |e.targets| && e.targets[i].destination.Some? ==> !Names(vm, e.targets[i].destination.value))
    && forall i :: 0 <= i < |e.sources| ==> CarriedBy(vm.volumes, e.sources[i])
  }

  /** A cancel pass lists the VM as cancelled: at once without a VMI, and with one when it is back and not migrating. */
  ghost predicate Cancels(ctx: Context, c: Cluster, name: string) {
    name in c.vmis ==> name in c.vms && IsBack(ctx, c.vms[name], name) && !Migrating(c.vmims, name, ctx.created)
  }

  // ----- The checks decide exactly that -----

  lemma NamesIff(vm: VM, claim: string)
    requires claim != ""
    ensures Names(vm, claim) <==> References(vm, claim)
  {
    forall k | 0 <= k < |vm.volumes| ensures vm.volumes[k].source in {DVSource(claim), PVCSource(claim)} <==> ClaimName(vm.volumes[k]) == claim {
    }
  }

  lemma CarrierLater(volumes: seq<Volume>, volume: string, k: int)
    requires volumes != [] && (volume == "" || volumes[0].name != volume || ClaimName(volumes[0]) == "")
    ensures CarrierAt(volumes[1..], volume, k - 1) ==> CarrierAt(volumes, volume, k)
    ensures CarrierAt(volumes, volume, k) && k > 0 ==> CarrierAt(volumes[1..], volume, k - 1)
  {
    if CarrierAt(volumes[1..], volume, k - 1) {
      assert forall j :: 0 < j < k ==> volumes[j] == volumes[1..][j - 1];
    }
  }

  lemma {:induction false} SourceMatchedIff(volumes: seq<Volume>, s: SourcePVC)
    requires s.name != ""
    ensures SourceMatched(volumes, s) <==> CarriedBy(volumes, s)
  {
    if volumes != [] {
      SourceMatchedIff(volumes[1..], s);
      if s.volumeName != "" && volumes[0].name == s.volumeName && ClaimName(volumes[0]) != "" {
        assert CarrierAt(volumes, s.volumeName, 0);
        forall k | CarrierAt(volumes, s.volumeName, k) ensures k == 0 {
        }
      } else {
        forall k
          ensures CarrierAt(volumes[1..], s.volumeName, k - 1) ==> CarrierAt(volumes, s.volumeName, k)
          ensures CarrierAt(volumes, s.volumeName, k) && k > 0 ==> CarrierAt(volumes[1..], s.volumeName, k - 1)
        {
          CarrierLater(volumes, s.volumeName, k);
        }
        if CarriedBy(volumes[1..], s) {
          var k :| CarrierAt(volumes[1..], s.volumeName, k) && ClaimName(volumes[1..][k]) == s.name;
          assert CarrierAt(volumes, s.volumeName, k + 1) && volumes[k + 1] == volumes[1..][k];
        }
        if CarriedBy(volumes, s) {
          var k :| CarrierAt(volumes, s.volumeName, k) && ClaimName(volumes[k]) == s.name;
          if k == 0 {
            assert s.volumeName == "";
          } else {
            assert CarrierAt(volumes[1..], s.volumeName, k - 1) && volumes[k] == volumes[1..][k - 1];
          }
        }
      }
    }
  }

  /** Every claim a plan entry speaks of has a name. */
  predicate NamedEntry(e: PlanVM) {
    && (forall i :: 0 <= i < |e.sources| ==> e.sources[i].name != "")
    && forall i :: 0 <= i < |e.targets| ==> e.targets[i].destination != Some("")
  }

  predicate NamedEntries(plan: Option<Plan>) {
    plan.Some? ==> forall e :: e in plan.value.ready + plan.value.inProgress ==> NamedEntry(e)
  }

  lemma BackForIff(vm: VM, e: PlanVM)
    requires NamedEntry(e)
    ensures BackFor(vm, e) <==> e.sources != [] && !ReferencesTargets(vm, e) && forall i :: 0 <= i < |e.sources| ==> SourceMatched(vm.volumes, e.sources[i])
  {
    forall i | 0 <= i < |e.targets| && e.targets[i].destination.Some?
      ensures Names(vm, e.targets[i].destination.value) <==> References(vm, e.targets[i].destination.value)
    {
      NamesIff(vm, e.targets[i].destination.value);
    }
    forall i | 0 <= i < |e.sources| ensures SourceMatched(vm.volumes, e.sources[i]) <==> CarriedBy(vm.volumes, e.sources[i]) {
      SourceMatchedIff(vm.volumes, e.sources[i]);
    }
  }

  lemma OnSourceIff(ctx: Context, vm: VM, name: string)
    requires NamedEntries(ctx.plan)
    ensures OnSourceVolumes(vm, Cancellable(ctx.plan), name) <==> IsBack(ctx, vm, name)
  {
    if ctx.plan.Some? {
      var entries := ctx.plan.value.ready + ctx.plan.value.inProgress;
      assert Cancellable(ctx.plan) == entries;
      var k := FirstEntry(entries, name);
      if FindEntry(entries, name).Some? {
        assert entries[k] in entries;
        BackForIff(vm, entries[k]);
        OnlyFirst(entries, name, k);
      }
    }
  }

  lemma MigratingIff(c: Cluster, name: string, created: nat)
    ensures HasActiveVMIM(c, name, created) <==> Migrating(c.vmims, name, created)
  {
    forall k | 0 <= k < |c.vmims|
      ensures IsActive(c.vmims[k], name, created) <==>
        c.vmims[k].vmiName == name && c.vmims[k].created >= created && c.vmims[k].phase != Succeeded && c.vmims[k].phase != Failed
    {
    }
  }

  // ----- A cancel pass -----

  /** One VM, exactly: cancelled is reported at once without a VMI, after its volumes were put back; with one, of a VM
      that is back and not migrating, which is left alone. A VM that is not back is put back, and stays running. */
  lemma CancelOneExactly(ctx: Context, api: Api, name: string)
    requires NamedEntries(ctx.plan)
    ensures
      var (api', verdict) := CancelOne(ctx, api, name);
      && api'.cluster == api.cluster.(vms := api'.cluster.vms)
      && (forall n :: n != name ==> (n in api'.cluster.vms <==> n in api.cluster.vms) && (n in api.cluster.vms ==> api'.cluster.vms[n] == api.cluster.vms[n]))
      && (verdict == NowCancelled ==> Cancels(ctx, api.cluster, name))
      && (verdict == StillRunning ==> !Cancels(ctx, api.cluster, name))
      && (verdict != CancelError && !(name in api.cluster.vmis && name in api.cluster.vms && IsBack(ctx, api.cluster.vms[name], name)) ==>
            RevertedIn(ctx, api, api', name))
      && (name in api.cluster.vmis && name in api.cluster.vms && IsBack(ctx, api.cluster.vms[name], name) ==> api'.cluster == api.cluster)
  {
    MigratingIff(api.cluster, name, ctx.created);
    var vmi := CheckVMI(api, name);
    if vmi.result.Ok? && vmi.result.value {
      var on := CheckOnSource(ctx, vmi.api, name);
      if name in api.cluster.vms {
        OnSourceIff(ctx, api.cluster.vms[name], name);
      }
      CancelVMEffect(ctx, on.api, name);
    } else if vmi.result.Ok? {
      CancelVMEffect(ctx, vmi.api, name);
    }
  }

  ghost function SplitCancelled(ctx: Context, c: Cluster, names: seq<string>, now: bool): seq<string> {
    if names == [] then []
    else if Cancels(ctx, c, names[0]) == now then [names[0]] + SplitCancelled(ctx, c, names[1..], now)
    else SplitCancelled(ctx, c, names[1..], now)
  }

  lemma {:induction false} SplitCancelledHas(ctx: Context, c: Cluster, names: seq<string>, now: bool, n: string)
    ensures n in SplitCancelled(ctx, c, names, now) <==> n in names && Cancels(ctx, c, n) == now
  {
    if names != [] {
      SplitCancelledHas(ctx, c, names[1..], now, n);
    }
  }

  /** Nothing a cancel pass has done so far touches these VMs. */
  predicate Untouched(c: Cluster, c': Cluster, names: seq<string>) {
    && c'.vmis == c.vmis && c'.vmims == c.vmims
    && forall n :: n in names ==> (n in c'.vms <==> n in c.vms) && (n in c.vms ==> c'.vms[n] == c.vms[n])
  }

  lemma {:induction false} SameSplit(ctx: Context, c: Cluster, c': Cluster, names: seq<string>, now: bool)
    requires Untouched(c, c', names)
    ensures SplitCancelled(ctx, c', names, now) == SplitCancelled(ctx, c, names, now)
  {
    if names != [] {
      assert names[0] in names;
      assert Cancels(ctx, c', names[0]) <==> Cancels(ctx, c, names[0]);
      SameSplit(ctx, c, c', names[1..], now);
    }
  }

  lemma TailNames(rest: seq<Running>)
    requires rest != [] && Distinct(RunningNames(rest))
    ensures RunningNames(rest) == [rest[0].name] + RunningNames(rest[1..])
    ensures Distinct(RunningNames(rest[1..])) && rest[0].name !in RunningNames(rest[1..])
  {
    var names, tail := RunningNames(rest), RunningNames(rest[1..]);
    assert names == [rest[0].name] + tail;
    forall k | 0 <= k < |tail| ensures tail[k] == names[k + 1] && names[0] != names[k + 1] {
    }
    forall i, j | 0 <= i < j < |tail| ensures tail[i] != tail[j] {
      assert names[i + 1] != names[j + 1];
    }
  }

  /** The loop goes on as the verdict on the first VM says. */
  lemma CancelLoopStep(ctx: Context, t: TaskState, rest: seq<Running>, running: seq<Running>, cancelled: seq<string>)
    requires rest != [] && CancelLoop(ctx, t, rest, running, cancelled).ok
    ensures
      var (api, verdict) := CancelOne(ctx, t.api, rest[0].name);
      && verdict != CancelError
      && CancelLoop(ctx, t, rest, running, cancelled) ==
         CancelLoop(ctx, t.(api := api), rest[1..], if verdict == StillRunning then running + [rest[0]] else running,
                    if verdict == StillRunning then cancelled else cancelled + [rest[0].name])
  {
  }

  lemma SplitCancelledStep(ctx: Context, c: Cluster, c': Cluster, name: string, tail: seq<string>, now: bool)
    requires Untouched(c, c', tail)
    ensures SplitCancelled(ctx, c, [name] + tail, now) ==
      if Cancels(ctx, c, name) == now then [name] + SplitCancelled(ctx, c', tail, now) else SplitCancelled(ctx, c', tail, now)
  {
    SameSplit(ctx, c, c', tail, now);
    assert ([name] + tail)[1..] == tail;
  }

  lemma CancelOneUntouched(ctx: Context, api: Api, name: string, tail: seq<string>)
    requires NamedEntries(ctx.plan) && name !in tail
    ensures Untouched(api.cluster, CancelOne(ctx, api, name).0.cluster, tail)
    ensures CancelOne(ctx, api, name).1 == NowCancelled ==> Cancels(ctx, api.cluster, name)
    ensures CancelOne(ctx, api, name).1 == StillRunning ==> !Cancels(ctx, api.cluster, name)
  {
    CancelOneExactly(ctx, api, name);
  }

  lemma JoinSplits(ctx: Context, c: Cluster, c': Cluster, rest: seq<Running>, before: seq<string>, end: seq<string>, now: bool)
    requires rest != [] && Distinct(RunningNames(rest)) && Untouched(c, c', RunningNames(rest[1..]))
    requires end == (if Cancels(ctx, c, rest[0].name) == now then before + [rest[0].name] else before) + SplitCancelled(ctx, c', RunningNames(rest[1..]), now)
    ensures end == before + SplitCancelled(ctx, c, RunningNames(rest), now)
  {
    TailNames(rest);
    SplitCancelledStep(ctx, c, c', rest[0].name, RunningNames(rest[1..]), now);
  }

  lemma {:induction false} CancelLoopExactly(ctx: Context, t: TaskState, rest: seq<Running>, running: seq<Running>, cancelled: seq<string>)
    requires NamedEntries(ctx.plan) && Distinct(RunningNames(rest)) && CancelLoop(ctx, t, rest, running, cancelled).ok
    ensures CancelLoop(ctx, t, rest, running, cancelled).state.cancelled == cancelled + SplitCancelled(ctx, t.api.cluster, RunningNames(rest), true)
    ensures RunningNames(CancelLoop(ctx, t, rest, running, cancelled).state.running) ==
      RunningNames(running) + SplitCancelled(ctx, t.api.cluster, RunningNames(rest), false)
    decreases rest
  {
    if rest != [] {
      TailNames(rest);
      CancelLoopStep(ctx, t, rest, running, cancelled);
      CancelOneUntouched(ctx, t.api, rest[0].name, RunningNames(rest[1..]));
      var (api, verdict) := CancelOne(ctx, t.api, rest[0].name);
      var still := verdict == StillRunning;
      var running', cancelled' := if still then running + [rest[0]] else running, if still then cancelled else cancelled + [rest[0].name];
      CancelLoopExactly(ctx, t.(api := api), rest[1..], running', cancelled');
      var end := CancelLoop(ctx, t.(api := api), rest[1..], running', cancelled').state;
      assert RunningNames(running + [rest[0]]) == RunningNames(running) + [rest[0].name];
      JoinSplits(ctx, t.api.cluster, api.cluster, rest, cancelled, end.cancelled, true);
      JoinSplits(ctx, t.api.cluster, api.cluster, rest, RunningNames(running), RunningNames(end.running), false);
    }
  }

  /** A cancel pass that gets through, with no VM running twice, lists as cancelled exactly the VMs without a VMI and
      those that are back on their sources and not migrating, and keeps the others running, in order. */
  lemma CancelPassExactly(ctx: Context, t: TaskState)
    requires t.phase == Canceling && NamedEntries(ctx.plan) && Distinct(RunningNames(t.running)) && RunPhase(ctx, t).ok
    ensures
      var t', names := RunPhase(ctx, t).state, RunningNames(t.running);
      && t'.cancelled == SplitCancelled(ctx, t.api.cluster, names, true)
      && RunningNames(t'.running) == SplitCancelled(ctx, t.api.cluster, names, false)
      && (forall n :: n in names ==> (n in t'.cancelled <==> Cancels(ctx, t.api.cluster, n)))
  {
    var names := RunningNames(t.running);
    CancelLoopExactly(ctx, t, t.running, [], []);
    assert RunningNames([]) == [];
    forall n | n in names ensures n in SplitCancelled(ctx, t.api.cluster, names, true) <==> Cancels(ctx, t.api.cluster, n) {
      SplitCancelledHas(ctx, t.api.cluster, names, true, n);
    }
  }
}
