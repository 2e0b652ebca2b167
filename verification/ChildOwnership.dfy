/** Who owns and who deletes child migrations, over every run of passes and outside changes. */
module ChildOwnership {
  import opened Basics
  import opened NamespaceOrder
  import opened MultiNamespace

  predicate OwnsAt(children: Children, k: Key, uid: string) {
    k in children && OwnedBy(children[k], uid)
  }

  /** What a change by the parent `uid` respects: unlabelled children stay as they are, other parents' children stay
      as they are outside `keys`, and only its own label is new. */
  ghost predicate Respects(before: Children, after: Children, uid: string, keys: set<Key>) {
    && (forall k :: k in before && before[k].owner.None? ==> k in after && after[k] == before[k])
    && (forall k :: k in before && !OwnedBy(before[k], uid) && k !in keys ==> k in after && after[k] == before[k])
    && (forall k :: k in after ==> OwnedBy(after[k], uid) || (k in before && after[k].owner == before[k].owner))
  }

  /** As Respects for the one key, and its own children stay as they are too. */
  ghost predicate Touches(before: Children, after: Children, uid: string, k: Key) {
    && (forall j :: j in before && (j != k || before[j].owner.None? || OwnedBy(before[j], uid)) ==> j in after && after[j] == before[j])
    && (forall j :: j in after && j != k ==> j in before)
    && (k in after ==> OwnedBy(after[k], uid) || (k in before && after[k].owner == before[k].owner))
  }

  lemma CreateTouches(a: Api, k: Key, uid: string)
    ensures
      var (b, made) := CreateChild(a, k, uid);
      && Touches(a.children, b.children, uid, k)
      && (made == Made ==> k !in a.children && OwnsAt(b.children, k, uid))
      && (made != Made ==> b.children == a.children)
      && (made == Exists ==> k in a.children)
      && (Stale !in a.answers ==> Stale !in b.answers)
  {
  }

  lemma DeleteTouches(a: Api, k: Key, uid: string)
    requires k in a.children ==> a.children[k].owner.Some? && !OwnedBy(a.children[k], uid)
    ensures
      var (b, gone) := DeleteChild(a, k);
      && Touches(a.children, b.children, uid, k)
      && (k in b.children ==> b.children[k].owner.Some? && !OwnedBy(b.children[k], uid))
      && (Stale !in a.answers ==> Stale !in b.answers)
  {
  }

  lemma AdoptTouches(a: Api, k: Key, uid: string)
    ensures
      var (b, end) := Adopt(a, k, uid);
      && Touches(a.children, b.children, uid, k)
      && end in {MadeOne, Conflicted, Errored}
      && (end == MadeOne ==> OwnsAt(b.children, k, uid))
      && (end == Conflicted ==> k in a.children && a.children[k].owner.None? && b.children == a.children)
      && (Stale !in a.answers ==> Stale !in b.answers)
  {
    CreateTouches(a, k, uid);
    var (b, made) := CreateChild(a, k, uid);
    if made == Exists {
      var (c, found) := GetChild(b, k);
      if found.Ok? && found.value.Some? && OwnedByAny(found.value.value) && !OwnedBy(found.value.value, uid) {
        DeleteTouches(c, k, uid);
        CreateTouches(DeleteChild(c, k).0, k, uid);
      }
    }
  }

  /** A visit changes at most the child at its key; only what is labelled by another parent is ever replaced there. */
  lemma VisitTouches(a: Api, k: Key, uid: string)
    ensures
      var (b, end, status) := Visit(a, k, uid);
      && Touches(a.children, b.children, uid, k)
      && (end == AllOwned ==> OwnsAt(a.children, k, uid) && b.children == a.children && status == a.children[k].status)
      && (end == MadeOne ==> OwnsAt(b.children, k, uid))
      && (end == Conflicted ==> k in a.children && a.children[k].owner.None? && b.children == a.children)
      && (Stale !in a.answers ==> Stale !in b.answers && (end == MadeOne ==> !OwnsAt(a.children, k, uid)))
  {
    var (b, found) := GetChild(a, k);
    AdoptTouches(b, k, uid);
    if found.Ok? && found.value.Some? && OwnedByAny(found.value.value) && !OwnedBy(found.value.value, uid) {
      DeleteTouches(b, k, uid);
      AdoptTouches(DeleteChild(b, k).0, k, uid);
    }
  }

  // ----- The loop over the plan -----

  function Missing(children: Children, keys: seq<Key>, uid: string): set<Key> {
    set k | k in keys && !OwnsAt(children, k, uid)
  }

  function StatusAt(children: Children, k: Key): string {
    if k in children then children[k].status else ""
  }

  function Statuses(children: Children, keys: seq<Key>): seq<Entry<string>> {
    if keys == [] then [] else [Entry(keys[0].namespace, StatusAt(children, keys[0]))] + Statuses(children, keys[1..])
  }

  lemma {:induction false} StatusesAt(children: Children, keys: seq<Key>)
    ensures |Statuses(children, keys)| == |keys|
    ensures forall i :: 0 <= i < |keys| ==> Statuses(children, keys)[i] == Entry(keys[i].namespace, StatusAt(children, keys[i]))
  {
    if keys != [] {
      StatusesAt(children, keys[1..]);
    }
  }

  /** The loop changes at most one child, at a key of the plan where this parent owned none. */
  lemma {:induction false} LoopTouches(a: Api, uid: string, rest: seq<Key>, acc: seq<Entry<string>>)
    ensures
      var (b, entries, end) := Loop(a, uid, rest, acc);
      || b.children == a.children
      || exists k :: k in rest && !OwnsAt(a.children, k, uid) && Touches(a.children, b.children, uid, k)
    decreases rest
  {
    if rest != [] {
      VisitTouches(a, rest[0], uid);
      var (b, end, status) := Visit(a, rest[0], uid);
      assert rest[0] in rest;
      if end == AllOwned {
        LoopTouches(b, uid, rest[1..], acc + [Entry(rest[0].namespace, status)]);
      } else if OwnsAt(a.children, rest[0], uid) {
        assert b.children == a.children;
      }
    }
  }

  /** It visits owned children until it makes one, meets a conflict or an error, or has seen them all. */
  lemma {:induction false} LoopEnds(a: Api, uid: string, rest: seq<Key>, acc: seq<Entry<string>>)
    ensures
      var (b, entries, end) := Loop(a, uid, rest, acc);
      && (end == Conflicted ==> exists k :: k in rest && k in a.children && a.children[k].owner.None?)
      && (end == MadeOne && Stale !in a.answers ==>
            exists k :: k in rest && !OwnsAt(a.children, k, uid) && OwnsAt(b.children, k, uid) && Touches(a.children, b.children, uid, k))
      && end != Skipped
    decreases rest
  {
    if rest != [] {
      VisitTouches(a, rest[0], uid);
      var (b, end, status) := Visit(a, rest[0], uid);
      assert rest[0] in rest;
      if end == AllOwned {
        LoopEnds(b, uid, rest[1..], acc + [Entry(rest[0].namespace, status)]);
      }
    }
  }

  lemma VisitOwned(a: Api, k: Key, uid: string)
    requires Visit(a, k, uid).1 == AllOwned
    ensures OwnsAt(a.children, k, uid) && Visit(a, k, uid).0 == Asked(a) && Visit(a, k, uid).2 == StatusAt(a.children, k)
  {
    VisitTouches(a, k, uid);
  }

  lemma StatusesStep(children: Children, rest: seq<Key>, acc: seq<Entry<string>>)
    requires rest != []
    ensures acc + [Entry(rest[0].namespace, StatusAt(children, rest[0]))] + Statuses(children, rest[1..]) == acc + Statuses(children, rest)
  {
  }

  /** A loop that gets to the end has seen only own children, changed nothing, and has the status of each. */
  lemma {:induction false} LoopSeesAll(a: Api, uid: string, rest: seq<Key>, acc: seq<Entry<string>>)
    requires Loop(a, uid, rest, acc).2 == AllOwned
    ensures Loop(a, uid, rest, acc).0.children == a.children
    ensures Loop(a, uid, rest, acc).1 == acc + Statuses(a.children, rest)
    decreases rest
  {
    if rest != [] {
      VisitOwned(a, rest[0], uid);
      var next, tail := acc + [Entry(rest[0].namespace, StatusAt(a.children, rest[0]))], rest[1..];
      assert Loop(a, uid, rest, acc) == Loop(Asked(a), uid, tail, next);
      LoopSeesAll(Asked(a), uid, tail, next);
      StatusesStep(a.children, rest, acc);
    }
  }

  lemma {:induction false} LoopOwnsAll(a: Api, uid: string, rest: seq<Key>, acc: seq<Entry<string>>, k: Key)
    requires Loop(a, uid, rest, acc).2 == AllOwned && k in rest
    ensures OwnsAt(a.children, k, uid)
    decreases rest
  {
    VisitOwned(a, rest[0], uid);
    if k != rest[0] {
      LoopOwnsAll(Asked(a), uid, rest[1..], acc + [Entry(rest[0].namespace, StatusAt(a.children, rest[0]))], k);
    }
  }

  lemma TouchesRespects(before: Children, after: Children, uid: string, k: Key, keys: set<Key>)
    requires Touches(before, after, uid, k) && k in keys
    ensures Respects(before, after, uid, keys)
  {
  }

  lemma LoopRespects(a: Api, uid: string, rest: seq<Key>)
    ensures Respects(a.children, Loop(a, uid, rest, []).0.children, uid, SetOf(rest))
  {
    LoopTouches(a, uid, rest, []);
    var after := Loop(a, uid, rest, []).0.children;
    if after != a.children {
      var k :| k in rest && Touches(a.children, after, uid, k);
      TouchesRespects(a.children, after, uid, k, SetOf(rest));
    }
  }

  // ----- One pass -----

  lemma {:induction false} DeleteOwnedEffect(a: Api, uid: string, rest: seq<Key>)
    ensures Respects(a.children, DeleteOwned(a, uid, rest).0.children, uid, {})
    decreases rest
  {
    if rest != [] {
      var k := rest[0];
      if OwnsAt(a.children, k, uid) && !a.children[k].deleting {
        DeleteOwnedEffect(DeleteChild(a, k).0, uid, rest[1..]);
      } else {
        DeleteOwnedEffect(a, uid, rest[1..]);
      }
    }
  }

  /** The keys a pass may replace another parent's child at. */
  function PlanKeys(p: Parent, plan: Result<Option<seq<Key>>>): set<Key> {
    if !p.deleting && plan.Ok? && plan.value.Some? then SetOf(plan.value.value) else {}
  }

  lemma FinalizeEffect(p: Parent, uid: string, listing: seq<Key>, a: Api)
    ensures
      var (p', b, end) := Finalize(p, uid, listing, a);
      && Respects(a.children, b.children, uid, {}) && p'.deleting == p.deleting
      && OwnedKeys(b.children, uid) <= OwnedKeys(a.children, uid)
      && (p'.finalizers != p.finalizers ==> OwnedKeys(b.children, uid) == {})
  {
    DeleteOwnedEffect(Asked(a), uid, listing);
    DeleteOwnedKeeps(Asked(a), uid, listing);
  }

  lemma ConcludeEffect(p: Parent, plan: Result<Option<seq<Key>>>, a: Api, loop: (Api, seq<Entry<string>>, End))
    ensures
      var (p', b, end) := Conclude(p, plan, a, loop);
      && p' == p.(status := p'.status) && p'.status.blocked == p.status.blocked
      && (b.children == a.children || (plan.Ok? && plan.value.Some? && b.children == loop.0.children))
  {
  }

  /** After the finalizer is in place a pass changes only the parent's status, and children only through the loop. */
  lemma MigrateEffect(p: Parent, uid: string, plan: Result<Option<seq<Key>>>, a: Api)
    ensures
      var (p', b, end) := Migrate(p, uid, plan, a);
      && p' == p.(status := p'.status) && p'.status.blocked == p.status.blocked
      && (b.children == a.children || (plan.Ok? && plan.value.Some? && b.children == Loop(a, uid, plan.value.value, []).0.children))
  {
    ConcludeEffect(p, plan, a, LoopSorted(uid, plan, a));
  }

  /** A pass never touches an unlabelled child, nor another parent's child outside its plan; when it ends without the
      finalizer on the parent, it made no child and, if it is the one that removed the finalizer, none is left. */
  lemma PassEffect(p: Parent, uid: string, plan: Result<Option<seq<Key>>>, listing: seq<Key>, a: Api)
    ensures
      var (p', b, end) := Pass(p, uid, plan, listing, a);
      && Respects(a.children, b.children, uid, PlanKeys(p, plan))
      && p'.deleting == p.deleting
      && (MULTI_FINALIZER in p.finalizers && MULTI_FINALIZER !in p'.finalizers ==> OwnedKeys(b.children, uid) == {})
      && (MULTI_FINALIZER !in p'.finalizers ==> OwnedKeys(b.children, uid) <= OwnedKeys(a.children, uid))
  {
    if p.deleting {
      FinalizeEffect(p, uid, listing, a);
    } else {
      var q := if MULTI_FINALIZER in p.finalizers then p else p.(finalizers := p.finalizers + [MULTI_FINALIZER]);
      var start := if MULTI_FINALIZER in p.finalizers then a else Asked(a);
      MigrateEffect(q, uid, plan, start);
      if plan.Ok? && plan.value.Some? {
        LoopRespects(start, uid, plan.value.value);
      }
    }
  }

  lemma {:induction false} DeleteOwnedKeeps(a: Api, uid: string, rest: seq<Key>)
    ensures OwnedKeys(DeleteOwned(a, uid, rest).0.children, uid) <= OwnedKeys(a.children, uid)
    decreases rest
  {
    if rest != [] {
      var k := rest[0];
      if OwnsAt(a.children, k, uid) && !a.children[k].deleting {
        DeleteOwnedKeeps(DeleteChild(a, k).0, uid, rest[1..]);
      } else {
        DeleteOwnedKeeps(a, uid, rest[1..]);
      }
    }
  }

  // ----- Every run -----

  /** Parents by UID; a UID in `known` was given to a parent in this run, and is never given again. */
  datatype Fleet = Fleet(parents: map<string, Parent>, known: set<string>, children: Children)

  datatype Event =
    | Reconciled(uid: string, plan: Result<Option<seq<Key>>>, listing: seq<Key>, answers: seq<Answer>)
    | ParentCreated(uid: string, parent: Parent)
    | ParentEdited(uid: string, parent: Parent)
    | ParentVanished(uid: string)
    | ChildrenChanged(children: Children)

  /** Outside changes: parents come with fresh UIDs, keep the finalizer through edits and cannot vanish while it is
      there; children may come, change, be relabelled and go, but a known UID is not put on a child. */
  ghost predicate Occurs(s: Fleet, ev: Event, s': Fleet) {
    match ev
    case Reconciled(u, plan, listing, answers) =>
      && u in s.parents
      && var (p, b, _) := Pass(s.parents[u], u, plan, listing, Api(s.children, answers));
         s' == s.(parents := s.parents[u := p], children := b.children)
    case ParentCreated(u, p) =>
      && u !in s.known && OwnedKeys(s.children, u) == {}
      && s' == s.(parents := s.parents[u := p], known := s.known + {u})
    case ParentEdited(u, p) =>
      && u in s.parents && (MULTI_FINALIZER in p.finalizers <==> MULTI_FINALIZER in s.parents[u].finalizers)
      && s' == s.(parents := s.parents[u := p])
    case ParentVanished(u) =>
      && u in s.parents && MULTI_FINALIZER !in s.parents[u].finalizers
      && s' == s.(parents := s.parents - {u})
    case ChildrenChanged(cs) =>
      && (forall u :: u in s.known ==> OwnedKeys(cs, u) <= OwnedKeys(s.children, u))
      && s' == s.(children := cs)
  }

  ghost predicate IsFleetRun(ss: seq<Fleet>, evs: seq<Event>) {
    |ss| == |evs| + 1 && forall i :: 0 <= i < |evs| ==> Occurs(ss[i], evs[i], ss[i + 1])
  }

  /** The parent exists and carries the finalizer. */
  predicate Guarded(s: Fleet, u: string) {
    u in s.parents && MULTI_FINALIZER in s.parents[u].finalizers
  }

  ghost predicate NoOrphans(s: Fleet) {
    && s.parents.Keys <= s.known
    && forall u :: u in s.known && !Guarded(s, u) ==> OwnedKeys(s.children, u) == {}
  }

  lemma PassKeepsOthers(before: Children, after: Children, uid: string, keys: set<Key>, u: string)
    requires Respects(before, after, uid, keys) && u != uid
    ensures OwnedKeys(after, u) <= OwnedKeys(before, u)
  {
  }

  lemma StepKeepsNoOrphans(s: Fleet, ev: Event, s': Fleet)
    requires NoOrphans(s) && Occurs(s, ev, s')
    ensures NoOrphans(s')
  {
    match ev {
      case Reconciled(uid, plan, listing, answers) =>
        var a := Api(s.children, answers);
        PassEffect(s.parents[uid], uid, plan, listing, a);
        forall u | u in s'.known && !Guarded(s', u) ensures OwnedKeys(s'.children, u) == {} {
          if u != uid {
            PassKeepsOthers(s.children, s'.children, uid, PlanKeys(s.parents[uid], plan), u);
          }
        }
      case ChildrenChanged(cs) =>
        forall u | u in s'.known && !Guarded(s', u) ensures OwnedKeys(s'.children, u) == {} {
          assert OwnedKeys(s'.children, u) <= OwnedKeys(s.children, u);
        }
      case _ =>
    }
  }

  /** No child outlives its parent's finalizer: in every run, whatever calls fail, once a parent's finalizer is gone
      (or the parent itself) no child carries its UID, and none ever does again. */
  lemma {:induction false} NoChildWithoutFinalizer(ss: seq<Fleet>, evs: seq<Event>, i: nat)
    requires IsFleetRun(ss, evs) && i < |ss| && NoOrphans(ss[0])
    ensures NoOrphans(ss[i])
    ensures forall u, k :: u in ss[i].known && !Guarded(ss[i], u) ==> !OwnsAt(ss[i].children, k, u)
  {
    if i > 0 {
      NoChildWithoutFinalizer(ss, evs, i - 1);
      StepKeepsNoOrphans(ss[i - 1], evs[i - 1], ss[i]);
    }
    forall u, k | u in ss[i].known && !Guarded(ss[i], u) ensures !OwnsAt(ss[i].children, k, u) {
      assert k !in OwnedKeys(ss[i].children, u);
    }
  }

  /** Unlabelled children are never deleted, nor even marked: in every run, as long as nobody else changes it, an
      unlabelled child stays exactly as it is, whichever parents' passes come across it. */
  lemma {:induction false} UnlabelledChildSurvives(ss: seq<Fleet>, evs: seq<Event>, k: Key, i: nat)
    requires IsFleetRun(ss, evs) && i < |ss| && k in ss[0].children && ss[0].children[k].owner.None?
    requires forall j :: 0 <= j < |evs| && evs[j].ChildrenChanged? && k in ss[j].children ==>
      k in evs[j].children && evs[j].children[k] == ss[j].children[k]
    ensures k in ss[i].children && ss[i].children[k] == ss[0].children[k]
  {
    if i > 0 {
      UnlabelledChildSurvives(ss, evs, k, i - 1);
      var s, ev := ss[i - 1], evs[i - 1];
      assert Occurs(s, ev, ss[i]);
      if ev.Reconciled? {
        PassEffect(s.parents[ev.uid], ev.uid, ev.plan, ev.listing, Api(s.children, ev.answers));
      }
    }
  }

  // ----- Progress -----

  predicate DistinctNamespaces(keys: seq<Key>) {
    forall i, j :: 0 <= i < j < |keys| ==> keys[i].namespace != keys[j].namespace
  }

  /** Every namespace of the plan exactly once, in order, each with its child's status. */
  ghost predicate ListsAll(es: seq<Entry<string>>, children: Children, keys: seq<Key>) {
    && SortedByName(es) && DistinctNames(es) && |es| == |keys|
    && forall k :: k in keys ==> k in children && Entry(k.namespace, children[k].status) in es
  }

  lemma {:induction false} NamesOfPermutation<T>(s: seq<Entry<T>>, t: seq<Entry<T>>)
    requires DistinctNames(s) && multiset(s) == multiset(t)
    ensures DistinctNames(t) && |s| == |t| && forall e :: e in s ==> e in t
  {
    assert |s| == |multiset(s)| == |multiset(t)| == |t|;
    assert forall e :: e in s ==> e in multiset(t);
    assert Distinct(s);
    PermutationIsDistinct(s, t);
    forall i, j | 0 <= i < j < |t| ensures t[i].name != t[j].name {
      assert t[i] in multiset(s) && t[j] in multiset(s);
    }
  }

  lemma SortedListsAll(children: Children, keys: seq<Key>)
    requires DistinctNamespaces(keys) && forall k :: k in keys ==> k in children
    ensures ListsAll(Sorted(Statuses(children, keys)), children, keys)
  {
    var es := Statuses(children, keys);
    StatusesAt(children, keys);
    NamesOfPermutation(es, Sorted(es));
    forall k | k in keys ensures k in children && Entry(k.namespace, children[k].status) in Sorted(es) {
      var i :| 0 <= i < |keys| && keys[i] == k;
      assert es[i] in es;
    }
  }

  /** The parent can migrate: not being deleted, its plan found, nothing else blocking. */
  predicate Active(p: Parent) {
    !p.deleting && p.hasPlanRef && !p.status.blocked
  }

  lemma MadeOneMissingLess(before: Children, after: Children, keys: seq<Key>, uid: string, k: Key)
    requires k in keys && !OwnsAt(before, k, uid) && OwnsAt(after, k, uid) && Touches(before, after, uid, k)
    ensures |Missing(after, keys, uid)| == |Missing(before, keys, uid)| - 1
  {
    forall j | j != k ensures OwnsAt(before, j, uid) <==> OwnsAt(after, j, uid) {
    }
    assert Missing(before, keys, uid) == Missing(after, keys, uid) + {k};
  }

  lemma LoopProgress(uid: string, keys: seq<Key>, a: Api)
    requires DistinctNamespaces(keys) && Stale !in a.answers
    ensures
      var (b, entries, end) := Loop(a, uid, keys, []);
      && (end == MadeOne ==> |Missing(b.children, keys, uid)| == |Missing(a.children, keys, uid)| - 1)
      && (end == AllOwned ==> b.children == a.children && Missing(b.children, keys, uid) == {} && ListsAll(Sorted(entries), b.children, keys))
      && (end == Conflicted ==> exists k :: k in keys && k in a.children && a.children[k].owner.None?)
      && end != Skipped
  {
    LoopEnds(a, uid, keys, []);
    var (b, entries, end) := Loop(a, uid, keys, []);
    if end == MadeOne {
      var k :| k in keys && !OwnsAt(a.children, k, uid) && OwnsAt(b.children, k, uid) && Touches(a.children, b.children, uid, k);
      MadeOneMissingLess(a.children, b.children, keys, uid, k);
    }
    if end == AllOwned {
      LoopSeesAll(a, uid, keys, []);
      forall k | k in keys ensures OwnsAt(a.children, k, uid) {
        LoopOwnsAll(a, uid, keys, [], k);
      }
      assert entries == Statuses(a.children, keys);
      SortedListsAll(a.children, keys);
    }
  }

  lemma ConcludeEnds(p: Parent, keys: seq<Key>, a: Api, loop: (Api, seq<Entry<string>>, End))
    requires Active(p)
    ensures
      var (p', b, end) := Conclude(p, Ok(Some(keys)), a, loop);
      && b.children == loop.0.children && (end == loop.2 || end == Errored)
      && (end == AllOwned ==> p'.status.namespaces == loop.1)
      && (loop.0.answers == [] ==> end == loop.2)
  {
  }

  /** Each pass without error or conflict, reading what is there, raises the number of owned namespaces by one or
      ends with all of them owned and listed; and a conflict is only reported for an unlabelled child at its key. */
  lemma PassProgress(p: Parent, uid: string, keys: seq<Key>, listing: seq<Key>, a: Api)
    requires Active(p) && DistinctNamespaces(keys) && Stale !in a.answers
    ensures
      var (p', b, end) := Pass(p, uid, Ok(Some(keys)), listing, a);
      && end != Skipped && Active(p')
      && (end == MadeOne ==> |Missing(b.children, keys, uid)| == |Missing(a.children, keys, uid)| - 1)
      && (end == AllOwned ==> b.children == a.children && Missing(b.children, keys, uid) == {} && ListsAll(p'.status.namespaces, b.children, keys))
      && (end == Conflicted ==> exists k :: k in keys && k in a.children && a.children[k].owner.None?)
  {
    var q := if MULTI_FINALIZER in p.finalizers then p else p.(finalizers := p.finalizers + [MULTI_FINALIZER]);
    var start := if MULTI_FINALIZER in p.finalizers then a else Asked(a);
    LoopProgress(uid, keys, start);
    ConcludeEnds(q, keys, start, LoopSorted(uid, Ok(Some(keys)), start));
    MigrateEffect(q, uid, Ok(Some(keys)), start);
  }

  /** Passes in a row with every call going well and nobody interfering. */
  ghost predicate Undisturbed(ps: seq<Parent>, cs: seq<Children>, uid: string, keys: seq<Key>) {
    |ps| == |cs| && forall i :: 0 <= i < |ps| - 1 ==> PassLeads(ps[i], cs[i], uid, keys, ps[i + 1], cs[i + 1])
  }

  ghost predicate PassLeads(p: Parent, children: Children, uid: string, keys: seq<Key>, p': Parent, children': Children) {
    var r := Pass(p, uid, Ok(Some(keys)), [], Api(children, []));
    p' == r.0 && children' == r.1.children
  }

  lemma GoodCallsDoNotFail(a: Api, uid: string, keys: seq<Key>, acc: seq<Entry<string>>)
    requires a.answers == []
    ensures Loop(a, uid, keys, acc).2 != Errored && Loop(a, uid, keys, acc).0.answers == []
    decreases keys
  {
  }

  predicate AllLabelled(children: Children, keys: seq<Key>) {
    forall k :: k in keys && k in children ==> children[k].owner.Some?
  }

  /** A pass whose calls all go well ends as its loop does, and neither errs nor conflicts without an unlabelled child. */
  lemma GoodPass(p: Parent, uid: string, keys: seq<Key>, children: Children)
    requires Active(p) && DistinctNamespaces(keys) && AllLabelled(children, keys)
    ensures
      var (p', b, end) := Pass(p, uid, Ok(Some(keys)), [], Api(children, []));
      && end in {MadeOne, AllOwned} && Active(p') && AllLabelled(b.children, keys)
      && (end == MadeOne ==> |Missing(b.children, keys, uid)| == |Missing(children, keys, uid)| - 1)
      && (end == AllOwned ==> Missing(b.children, keys, uid) == {} && ListsAll(p'.status.namespaces, b.children, keys))
  {
    var a := Api(children, []);
    PassProgress(p, uid, keys, [], a);
    PassEffect(p, uid, Ok(Some(keys)), [], a);
    GoodPassEnds(p, uid, keys, a);
  }

  lemma GoodPassEnds(p: Parent, uid: string, keys: seq<Key>, a: Api)
    requires Active(p) && a.answers == []
    ensures Pass(p, uid, Ok(Some(keys)), [], a).2 == Loop(a, uid, keys, []).2 && Loop(a, uid, keys, []).2 != Errored
  {
    var q := if MULTI_FINALIZER in p.finalizers then p else p.(finalizers := p.finalizers + [MULTI_FINALIZER]);
    GoodCallsDoNotFail(a, uid, keys, []);
    ConcludeEnds(q, keys, a, LoopSorted(uid, Ok(Some(keys)), a));
    assert Asked(a) == a;
  }

  /** `left` more undisturbed passes are enough. */
  ghost predicate Nears(p: Parent, uid: string, keys: seq<Key>, children: Children, left: nat) {
    && Active(p) && AllLabelled(children, keys)
    && if left == 0 then Missing(children, keys, uid) == {} && ListsAll(p.status.namespaces, children, keys) else |Missing(children, keys, uid)| < left
  }

  lemma GoodPassNears(p: Parent, uid: string, keys: seq<Key>, children: Children, left: nat, p': Parent, children': Children)
    requires DistinctNamespaces(keys) && Nears(p, uid, keys, children, left) && PassLeads(p, children, uid, keys, p', children')
    ensures Nears(p', uid, keys, children', if left == 0 then 0 else left - 1)
  {
    GoodPass(p, uid, keys, children);
  }

  /** Undisturbed passes converge: with no unlabelled child in the way, once there were more passes than namespaces
      missing at first, every namespace is owned and the status lists each of them once, in order, from then on. */
  lemma {:induction false} OwnershipConverges(ps: seq<Parent>, cs: seq<Children>, uid: string, keys: seq<Key>, i: nat)
    requires Undisturbed(ps, cs, uid, keys) && i < |ps| && DistinctNamespaces(keys)
    requires Active(ps[0]) && AllLabelled(cs[0], keys)
    ensures
      var needed := |Missing(cs[0], keys, uid)| + 1;
      Nears(ps[i], uid, keys, cs[i], if i < needed then needed - i else 0)
    ensures i > |Missing(cs[0], keys, uid)| ==> Missing(cs[i], keys, uid) == {} && ListsAll(ps[i].status.namespaces, cs[i], keys)
  {
    if i > 0 {
      OwnershipConverges(ps, cs, uid, keys, i - 1);
      var needed := |Missing(cs[0], keys, uid)| + 1;
      GoodPassNears(ps[i - 1], uid, keys, cs[i - 1], if i - 1 < needed then needed - (i - 1) else 0, ps[i], cs[i]);
    }
  }

  // ----- What the status says -----

  /** What a pass past the finalizer leaves in the stored status, if the status write is not refused: the namespaces it
      saw owned when it got to the end or to a conflict, the conflict condition exactly after a conflict, and no sign of
      a missing plan; with no plan, that sign. A pass that made a child, or failed, leaves the status alone. */
  lemma StatusExactly(p: Parent, uid: string, plan: Result<Option<seq<Key>>>, a: Api)
    requires p.hasPlanRef && plan.Ok?
    ensures
      var (p', b, end) := Migrate(p, uid, plan, a);
      && (plan.value.None? && end != Errored ==> p'.status == p.status.(invalidPlan := true))
      && (plan.value.Some? && p.status.blocked && end != Errored ==> p'.status == p.status.(invalidPlan := false, conflict := false))
      && (end == AllOwned ==> !p'.status.conflict && !p'.status.invalidPlan)
      && (end == Conflicted ==> p'.status.conflict && !p'.status.invalidPlan)
      && (end in {MadeOne, Errored} ==> p' == p)
  {
    if plan.value.Some? {
      StatusAfterLoop(p, plan, a, LoopSorted(uid, plan, a));
    }
  }

  lemma StatusAfterLoop(p: Parent, plan: Result<Option<seq<Key>>>, a: Api, loop: (Api, seq<Entry<string>>, End))
    requires p.hasPlanRef && plan.Ok? && plan.value.Some?
    ensures
      var (p', b, end) := Conclude(p, plan, a, loop);
      && (p.status.blocked && end != Errored ==> p'.status == p.status.(invalidPlan := false, conflict := false))
      && (end == AllOwned ==> !p'.status.invalidPlan && (!p.status.blocked ==> !p'.status.conflict))
      && (end == Conflicted ==> !p'.status.invalidPlan && p'.status.conflict)
      && (end in {MadeOne, Errored} ==> p' == p)
  {
  }

  // ----- Deleting a parent ends -----

  lemma {:induction false} GoodDeletes(a: Api, uid: string, rest: seq<Key>)
    requires a.answers == []
    ensures
      var (b, ok) := DeleteOwned(a, uid, rest);
      && ok && b.answers == []
      && forall k :: k in b.children && OwnedBy(b.children[k], uid) && !b.children[k].deleting ==> k in a.children && OwnedBy(a.children[k], uid) && k !in rest
    decreases rest
  {
    if rest != [] {
      var k := rest[0];
      if k !in a.children || !OwnedBy(a.children[k], uid) || a.children[k].deleting {
        GoodDeletes(a, uid, rest[1..]);
        DeleteOwnedLeaves(a, uid, rest[1..]);
      } else {
        GoodDeletes(DeleteChild(a, k).0, uid, rest[1..]);
        DeleteOwnedLeaves(DeleteChild(a, k).0, uid, rest[1..]);
      }
    }
  }

  /** Deleting marks or removes children, and brings none. */
  lemma {:induction false} DeleteOwnedLeaves(a: Api, uid: string, rest: seq<Key>)
    ensures
      var b := DeleteOwned(a, uid, rest).0;
      forall k :: k in b.children ==> k in a.children && b.children[k].owner == a.children[k].owner && (a.children[k].deleting ==> b.children[k].deleting)
    decreases rest
  {
    if rest != [] {
      var k := rest[0];
      if k !in a.children || !OwnedBy(a.children[k], uid) || a.children[k].deleting {
        DeleteOwnedLeaves(a, uid, rest[1..]);
      } else {
        DeleteOwnedLeaves(DeleteChild(a, k).0, uid, rest[1..]);
      }
    }
  }

  /** When every call goes well and none of its children is still on its way out, one pass over a parent being deleted
      deletes all of them and takes the finalizer off. */
  lemma DeletionEnds(p: Parent, uid: string, listing: seq<Key>, children: Children)
    requires p.deleting && (forall k :: k in children ==> k in listing)
    requires forall k :: k in children && OwnedBy(children[k], uid) ==> !children[k].deleting
    ensures
      var (p', b, end) := Pass(p, uid, Ok(None), listing, Api(children, []));
      MULTI_FINALIZER !in p'.finalizers && OwnedKeys(b.children, uid) == {}
  {
    var a := Api(children, []);
    GoodDeletes(a, uid, listing);
    var b := DeleteOwned(a, uid, listing).0;
    GoodDeletesKeepMarks(a, uid, listing);
    forall k | k in b.children ensures !OwnedBy(b.children[k], uid) {
    }
  }

  /** A good delete removes, it does not mark. */
  lemma {:induction false} GoodDeletesKeepMarks(a: Api, uid: string, rest: seq<Key>)
    requires a.answers == []
    ensures
      var b := DeleteOwned(a, uid, rest).0;
      forall k :: k in b.children ==> k in a.children && b.children[k] == a.children[k]
    decreases rest
  {
    if rest != [] {
      var k := rest[0];
      if k !in a.children || !OwnedBy(a.children[k], uid) || a.children[k].deleting {
        GoodDeletesKeepMarks(a, uid, rest[1..]);
      } else {
        GoodDeletesKeepMarks(DeleteChild(a, k).0, uid, rest[1..]);
      }
    }
  }
}
