/** The start/end stamps by which a migration asks the plan controller for a refresh and waits for it. */
module RefreshHandshake {
  import opened Basics
  import opened ClusterApi
  import opened TaskSpec

  /** Whether a plan reconcile should stamp the end of a refresh. */
  function ShouldUpdateRefresh(start: Option<Stamp>, end: Option<Stamp>): bool {
    if start.None? then false
    else if end.None? || start.value.Malformed? || end.value.Malformed? then true
    else end.value.time <= start.value.time
  }

  /** The two sides agree, for stamps that can be read: the plan side stamps an end exactly while the waiting side finds
      the refresh unfinished, that is, while there is no end or it is not after the start. */
  lemma SidesAgree(start: nat, end: Option<nat>)
    ensures
      var s, e := Some(At(start)), if end.None? then None else Some(At(end.value));
      && (ShouldUpdateRefresh(s, e) <==> end.None? || end.value <= start)
      && (RefreshDone(s, e) == Ok(true) <==> end.Some? && end.value > start)
  {
  }

  /** Without a start stamp nothing is stamped; a stamp that cannot be read is stamped over, and is an error to the waiter. */
  lemma UnreadableStamps(start: Option<Stamp>, end: Option<Stamp>)
    ensures start.None? ==> !ShouldUpdateRefresh(start, end)
    ensures start.Some? && (start.value.Malformed? || (end.Some? && end.value.Malformed?)) ==>
      ShouldUpdateRefresh(start, end) && RefreshDone(start, end) != Ok(true)
  {
  }

  // ----- The protocol -----

  /** The stored plan: its resource version, the two annotations, and the version its status lists were computed from. */
  datatype Store = Store(version: nat, start: Option<Stamp>, end: Option<Stamp>, listsFrom: nat)

  /** A plan reconcile between its read and its last write. `version` is the resource version it will present. */
  datatype Worker = Idle | Busy(readVersion: nat, version: nat, start: Option<Stamp>, end: Option<Stamp>, metaDone: bool)

  datatype Protocol = Protocol(store: Store, worker: Worker, waiting: set<string>, left: set<string>)

  datatype Step =
    | StampStart(migration: string, now: nat)
    | ReadPlan
    | WriteMeta(now: nat, touched: bool)
    | WriteStatus
    | GiveUp
    | OtherEdit
    | Leave(migration: string)

  /** A merge patch that changes nothing keeps the resource version. */
  predicate EffectiveStamp(p: Protocol, step: Step) {
    step.StampStart? && !(p.store.start == Some(At(step.now)) && p.store.end.None?)
  }

  function NewEnd(w: Worker, now: nat): Option<Stamp>
    requires w.Busy?
  {
    if ShouldUpdateRefresh(w.start, w.end) then Some(At(now)) else w.end
  }

  /** The metadata write is sent when the end stamp or anything else in the metadata changed. */
  predicate Sends(p: Protocol, step: Step) {
    step.WriteMeta? && p.worker.Busy? && (step.touched || ShouldUpdateRefresh(p.worker.start, p.worker.end))
  }

  predicate Commits(p: Protocol, step: Step) {
    Sends(p, step) && !p.worker.metaDone && p.worker.version == p.store.version
  }

  ghost predicate Happens(p: Protocol, step: Step, p': Protocol) {
    match step
    case StampStart(m, now) =>
      p' == p.(waiting := p.waiting + {m},
               store := if EffectiveStamp(p, step) then p.store.(version := p.store.version + 1, start := Some(At(now)), end := None) else p.store)
    case ReadPlan =>
      p.worker.Idle? && p' == p.(worker := Busy(p.store.version, p.store.version, p.store.start, p.store.end, false))
    case WriteMeta(now, touched) =>
      p.worker.Busy? && !p.worker.metaDone &&
      (if !Sends(p, step) then p' == p.(worker := p.worker.(metaDone := true))
       else if p.worker.version != p.store.version then p' == p.(worker := Idle)
       else
         var v := p.store.version + 1;
         p' == p.(store := p.store.(version := v, start := p.worker.start, end := NewEnd(p.worker, now)),
                  worker := p.worker.(version := v, end := NewEnd(p.worker, now), metaDone := true)))
    case WriteStatus =>
      p.worker.Busy? && p.worker.metaDone &&
      (if p.worker.version != p.store.version then p' == p.(worker := Idle)
       else p' == p.(worker := Idle, store := p.store.(version := p.store.version + 1, listsFrom := p.worker.readVersion)))
    case GiveUp =>
      p' == p.(worker := Idle)
    case OtherEdit =>
      p' == p.(store := p.store.(version := p.store.version + 1))
    case Leave(m) =>
      m in p.waiting && RefreshDone(p.store.start, p.store.end) == Ok(true)
      && p' == p.(waiting := p.waiting - {m}, left := p.left + {m})
  }

  ghost predicate IsProtocolRun(ps: seq<Protocol>, steps: seq<Step>) {
    && |ps| == |steps| + 1
    && forall i :: 0 <= i < |steps| ==> Happens(ps[i], steps[i], ps[i + 1])
  }

  /** No refresh is pending and no worker is in flight; nobody has stamped an end. */
  ghost predicate Quiet(p: Protocol) {
    p.worker.Idle? && p.store.end.None? && p.store.listsFrom <= p.store.version
  }

  lemma {:induction false} VersionsGrow(ps: seq<Protocol>, steps: seq<Step>, i: nat, j: nat)
    requires IsProtocolRun(ps, steps) && i <= j < |ps|
    ensures ps[i].store.version <= ps[j].store.version
    ensures ps[i].store.version == ps[j].store.version ==> forall k :: i <= k < j ==> !EffectiveStamp(ps[k], steps[k])
    decreases j - i
  {
    if i < j {
      VersionsGrow(ps, steps, i, j - 1);
      assert Happens(ps[j - 1], steps[j - 1], ps[j]);
    }
  }

  /** A busy worker remembers the plan exactly as it was at some earlier read. */
  lemma {:induction false} WorkerRead(ps: seq<Protocol>, steps: seq<Step>, i: nat) returns (r: nat)
    requires IsProtocolRun(ps, steps) && Quiet(ps[0]) && i < |ps| && ps[i].worker.Busy?
    ensures r < i && steps[r] == ReadPlan && ps[r].store.version == ps[i].worker.readVersion
    ensures ps[i].worker.readVersion <= ps[i].worker.version
    ensures !ps[i].worker.metaDone ==>
      ps[i].worker == Busy(ps[r].store.version, ps[r].store.version, ps[r].store.start, ps[r].store.end, false)
  {
    assert Happens(ps[i - 1], steps[i - 1], ps[i]);
    if steps[i - 1] == ReadPlan {
      r := i - 1;
    } else {
      r := WorkerRead(ps, steps, i - 1);
    }
  }

  /** Where an end stamp comes from: a reconcile that read the plan, committed, and since whose read nobody has stamped. */
  lemma {:induction false} EndStampOrigin(ps: seq<Protocol>, steps: seq<Step>, i: nat) returns (r: nat, c: nat)
    requires IsProtocolRun(ps, steps) && Quiet(ps[0]) && i < |ps| && ps[i].store.end.Some?
    ensures r < c < i && steps[r] == ReadPlan && Commits(ps[c], steps[c]) && ps[c].worker.readVersion == ps[r].store.version
    ensures forall k :: r <= k < i ==> !EffectiveStamp(ps[k], steps[k])
  {
    assert Happens(ps[i - 1], steps[i - 1], ps[i]);
    if Commits(ps[i - 1], steps[i - 1]) {
      c := i - 1;
      r := WorkerRead(ps, steps, c);
      VersionsGrow(ps, steps, r, c);
    } else {
      r, c := EndStampOrigin(ps, steps, i - 1);
    }
  }

  /** Refresh handshake: whichever migration leaves the wait phase, some plan reconcile read the plan after the
      current start stamp and has committed, for any number of migrations and whatever the clocks say. */
  lemma LeavesOnlyAfterRefresh(ps: seq<Protocol>, steps: seq<Step>, i: nat) returns (r: nat, c: nat)
    requires IsProtocolRun(ps, steps) && Quiet(ps[0]) && i < |steps| && steps[i].Leave?
    ensures r < c < i && steps[r] == ReadPlan && Commits(ps[c], steps[c]) && ps[c].worker.readVersion == ps[r].store.version
    ensures forall k :: r <= k < i ==> !EffectiveStamp(ps[k], steps[k])
  {
    assert Happens(ps[i], steps[i], ps[i + 1]);
    r, c := EndStampOrigin(ps, steps, i);
  }

  // ----- What the handshake does not cover -----

  /** The status write of the reconcile in flight is accepted. */
  predicate StatusAccepted(p: Protocol, step: Step) {
    step == WriteStatus && p.worker.Busy? && p.worker.metaDone && p.worker.version == p.store.version
  }

  /** It is accepted for a reconcile that read after version v. */
  predicate RefreshesLists(p: Protocol, step: Step, v: nat) {
    StatusAccepted(p, step) && p.worker.readVersion > v
  }

  lemma {:induction false} ListsBehind(ps: seq<Protocol>, steps: seq<Step>, i: nat)
    requires IsProtocolRun(ps, steps) && Quiet(ps[0]) && i < |ps|
    ensures ps[i].store.listsFrom <= ps[i].store.version
    ensures ps[i].worker.Busy? ==> ps[i].store.listsFrom <= ps[i].worker.readVersion <= ps[i].store.version
  {
    if i > 0 {
      ListsBehind(ps, steps, i - 1);
      assert Happens(ps[i - 1], steps[i - 1], ps[i]);
    }
  }

  /** The lists a leaving migration will work from are newer than its start stamp exactly when, after the stamp,
      some reconcile that read after it has also had its status write accepted: metadata goes first. */
  lemma {:induction false} ListsAreFreshIff(ps: seq<Protocol>, steps: seq<Step>, s: nat, i: nat)
    requires IsProtocolRun(ps, steps) && Quiet(ps[0]) && s <= i < |ps|
    ensures ps[i].store.listsFrom > ps[s].store.version <==> exists j :: s <= j < i && RefreshesLists(ps[j], steps[j], ps[s].store.version)
    decreases i - s
  {
    ListsBehind(ps, steps, i);
    if s < i {
      ListsBehind(ps, steps, i - 1);
      ListsAreFreshIff(ps, steps, s, i - 1);
      assert Happens(ps[i - 1], steps[i - 1], ps[i]);
      if ps[i].store.listsFrom > ps[s].store.version && !(ps[i - 1].store.listsFrom > ps[s].store.version) {
        assert RefreshesLists(ps[i - 1], steps[i - 1], ps[s].store.version);
      }
    }
  }

  /** A reconcile that read the plan at step q has its status write accepted at step j. */
  ghost predicate ReadAndStored(ps: seq<Protocol>, steps: seq<Step>, q: nat, j: nat)
    requires q < j < |steps| < |ps|
  {
    steps[q] == ReadPlan && StatusAccepted(ps[j], steps[j]) && ps[j].worker.readVersion == ps[q].store.version
  }

  /** When a migration leaves, the end stamp it saw comes from a reconcile that read after the start stamp; the lists
      it goes on with are newer than that stamp if and only if some reconcile, that one or another, both read the plan
      after the stamp and had its status write accepted before the migration left. */
  lemma LeaveListsAreFreshIff(ps: seq<Protocol>, steps: seq<Step>, s: nat, i: nat) returns (r: nat, c: nat)
    requires IsProtocolRun(ps, steps) && Quiet(ps[0]) && s < i < |steps| && steps[i].Leave?
    requires EffectiveStamp(ps[s], steps[s]) && forall k :: s < k < i ==> !EffectiveStamp(ps[k], steps[k])
    ensures s < r < c < i && steps[r] == ReadPlan && Commits(ps[c], steps[c]) && ps[c].worker.readVersion == ps[r].store.version
    ensures ps[i].store.listsFrom > ps[s].store.version <==> exists q, j :: s < q < j < i && ReadAndStored(ps, steps, q, j)
  {
    r, c := LeavesOnlyAfterRefresh(ps, steps, i);
    var v := ps[s].store.version;
    assert Happens(ps[s], steps[s], ps[s + 1]);
    ListsAreFreshIff(ps, steps, s, i);
    if ps[i].store.listsFrom > v {
      var j :| s <= j < i && RefreshesLists(ps[j], steps[j], v);
      var q := WorkerRead(ps, steps, j);
      if q <= s {
        VersionsGrow(ps, steps, q, s);
      }
      assert ReadAndStored(ps, steps, q, j);
    }
    forall q, j | s < q < j < i && ReadAndStored(ps, steps, q, j) ensures RefreshesLists(ps[j], steps[j], v) {
      VersionsGrow(ps, steps, s + 1, q);
    }
  }

  /** A run in which a migration leaves the wait phase although the lists are still those of before its stamp. */
  lemma ListsMayBeStale() returns (ps: seq<Protocol>, steps: seq<Step>)
    ensures IsProtocolRun(ps, steps) && |steps| == 4 && Quiet(ps[0]) && EffectiveStamp(ps[0], steps[0])
    ensures steps[3] == Leave("m") && ps[4].left == {"m"} && ps[4].store.listsFrom == ps[0].store.listsFrom < ps[1].store.version
  {
    var p0 := Protocol(Store(0, None, None, 0), Idle, {}, {});
    var p1 := Protocol(Store(1, Some(At(5)), None, 0), Idle, {"m"}, {});
    var p2 := p1.(worker := Busy(1, 1, Some(At(5)), None, false));
    var p3 := p2.(store := Store(2, Some(At(5)), Some(At(7)), 0), worker := Busy(1, 2, Some(At(5)), Some(At(7)), true));
    var p4 := p3.(waiting := {}, left := {"m"});
    ps := [p0, p1, p2, p3, p4];
    steps := [StampStart("m", 5), ReadPlan, WriteMeta(7, false), Leave("m")];
    assert Happens(p0, steps[0], p1) && Happens(p1, steps[1], p2) && Happens(p2, steps[2], p3) && Happens(p3, steps[3], p4);
  }
}
