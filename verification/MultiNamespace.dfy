/** A multi-namespace migration and the child migrations it owns, one in each namespace of its plan. */
module MultiNamespace {
  import opened Basics
  import opened NamespaceOrder

  datatype Key = Key(namespace: string, name: string)

  /** `owner` is the value of the parent-UID label, if the child carries it. */
  datatype Child = Child(owner: Option<string>, deleting: bool, status: string)

  type Children = map<Key, Child>

  /** How the server treats one call. Lingers: a deleted child has finalizers and stays, marked; Stale: a read misses
      a child that exists. Calls beyond the schedule go well. */
  datatype Answer = Good | Fails | Lingers | Stale

  datatype Api = Api(children: Children, answers: seq<Answer>)

  function Ans(a: Api): Answer {
    if a.answers == [] then Good else a.answers[0]
  }

  function Asked(a: Api): Api {
    a.(answers := if a.answers == [] then [] else a.answers[1..])
  }

  predicate OwnedBy(c: Child, uid: string) {
    c.owner == Some(uid)
  }

  predicate OwnedByAny(c: Child) {
    c.owner.Some?
  }

  function GetChild(a: Api, k: Key): (Api, Result<Option<Child>>) {
    (Asked(a),
     if Ans(a) == Fails then Err
     else if Ans(a) == Stale || k !in a.children then Ok(None)
     else Ok(Some(a.children[k])))
  }

  /** deleteChildMigration */
  function DeleteChild(a: Api, k: Key): (Api, bool) {
    var b := Asked(a);
    if Ans(a) == Fails then (b, false)
    else if k !in a.children then (b, true)
    else if Ans(a) == Lingers then (b.(children := a.children[k := a.children[k].(deleting := true)]), true)
    else (b.(children := a.children - {k}), true)
  }

  datatype Created = Made | Exists | CreateFails

  function CreateChild(a: Api, k: Key, uid: string): (Api, Created) {
    var b := Asked(a);
    if Ans(a) == Fails then (b, CreateFails)
    else if k in a.children then (b, Exists)
    else (b.(children := a.children[k := Child(Some(uid), false, "")]), Made)
  }

  datatype End = AllOwned | MadeOne | Conflicted | Errored | Skipped

  /** createNamespacedMigration */
  function Adopt(a: Api, k: Key, uid: string): (Api, End) {
    var (b, made) := CreateChild(a, k, uid);
    match made
    case Made => (b, MadeOne)
    case CreateFails => (b, Errored)
    case Exists =>
      var (c, found) := GetChild(b, k);
      if found.Err? || found.value.None? then (c, Errored)
      else if OwnedBy(found.value.value, uid) then (c, MadeOne)
      else if !OwnedByAny(found.value.value) then (c, Conflicted)
      else
        var (d, gone) := DeleteChild(c, k);
        if !gone then (d, Errored)
        else
          var (e, again) := CreateChild(d, k, uid);
          (e, if again == Made then MadeOne else Errored)
  }

  /** One namespace of the plan; AllOwned means that the loop goes on, with the child's status. */
  function Visit(a: Api, k: Key, uid: string): (Api, End, string) {
    var (b, found) := GetChild(a, k);
    match found
    case Err => (b, Errored, "")
    case Ok(None) => var (c, end) := Adopt(b, k, uid); (c, end, "")
    case Ok(Some(child)) =>
      if OwnedBy(child, uid) then (b, AllOwned, child.status)
      else if !OwnedByAny(child) then (b, Conflicted, "")
      else
        var (c, gone) := DeleteChild(b, k);
        if !gone then (c, Errored, "") else var (d, end) := Adopt(c, k, uid); (d, end, "")
  }

  function Loop(a: Api, uid: string, rest: seq<Key>, acc: seq<Entry<string>>): (Api, seq<Entry<string>>, End)
    decreases rest
  {
    if rest == [] then (a, acc, AllOwned)
    else
      var (b, end, status) := Visit(a, rest[0], uid);
      if end == AllOwned then Loop(b, uid, rest[1..], acc + [Entry(rest[0].namespace, status)]) else (b, acc, end)
  }

  // ----- The parent -----

  const MULTI_FINALIZER := "migrations.kubevirt.io/multinamespace-storage-migration-finalizer"

  /** `blocked` stands for blocking conditions other than the two the reconciler re-evaluates itself. */
  datatype ParentStatus = ParentStatus(conflict: bool, invalidPlan: bool, blocked: bool, namespaces: seq<Entry<string>>)

  datatype Parent = Parent(finalizers: seq<string>, deleting: bool, hasPlanRef: bool, status: ParentStatus)

  function WithoutFinalizer(finalizers: seq<string>): (r: seq<string>)
    ensures forall f :: f in r <==> f in finalizers && f != MULTI_FINALIZER
  {
    if finalizers == [] then []
    else (if finalizers[0] == MULTI_FINALIZER then [] else [finalizers[0]]) + WithoutFinalizer(finalizers[1..])
  }

  function OwnedKeys(children: Children, uid: string): set<Key> {
    set k | k in children && OwnedBy(children[k], uid)
  }

  function DeleteOwned(a: Api, uid: string, rest: seq<Key>): (Api, bool)
    decreases rest
  {
    if rest == [] then (a, true)
    else if rest[0] !in a.children || !OwnedBy(a.children[rest[0]], uid) || a.children[rest[0]].deleting then DeleteOwned(a, uid, rest[1..])
    else
      var (b, ok) := DeleteChild(a, rest[0]);
      if ok then DeleteOwned(b, uid, rest[1..]) else (b, false)
  }

  /** runFinalizer; `listing` is the order in which the server lists the children. */
  function Finalize(p: Parent, uid: string, listing: seq<Key>, a: Api): (Parent, Api, End) {
    if Ans(a) == Fails then (p, Asked(a), Errored)
    else
      var (b, ok) := DeleteOwned(Asked(a), uid, listing);
      if !ok || Ans(b) == Fails then (p, if ok then Asked(b) else b, Errored)
      else
        var c := Asked(b);
        if OwnedKeys(c.children, uid) != {} then (p, c, Skipped)
        else if Ans(c) == Fails then (p, Asked(c), Errored)
        else (p.(finalizers := WithoutFinalizer(p.finalizers)), Asked(c), Skipped)
  }

  function StoreStatus(p: Parent, status: ParentStatus, a: Api, end: End): (Parent, Api, End) {
    if status == p.status then (p, a, end)
    else if Ans(a) == Fails then (p, Asked(a), Errored)
    else (p.(status := status), Asked(a), end)
  }

  /** The part of a pass after the finalizer is in place, given what the loop over the plan's namespaces
      comes to, its entries sorted. */
  function Conclude(p: Parent, plan: Result<Option<seq<Key>>>, a: Api, loop: (Api, seq<Entry<string>>, End)): (Parent, Api, End) {
    if !p.hasPlanRef then (p, a, Skipped)
    else
      match plan
      case Err => (p, a, Errored)
      case Ok(None) => StoreStatus(p, p.status.(invalidPlan := true), a, Skipped)
      case Ok(Some(_)) =>
        var cleared := p.status.(invalidPlan := false, conflict := false);
        if p.status.blocked then StoreStatus(p, cleared, a, Skipped)
        else if loop.2 == MadeOne || loop.2 == Errored then (p, loop.0, loop.2)
        else StoreStatus(p, cleared.(conflict := loop.2 == Conflicted, namespaces := loop.1), loop.0, loop.2)
  }

  /** The plan is the key of each namespace's child. */
  function Migrate(p: Parent, uid: string, plan: Result<Option<seq<Key>>>, a: Api): (Parent, Api, End) {
    Conclude(p, plan, a, LoopSorted(uid, plan, a))
  }

  function LoopSorted(uid: string, plan: Result<Option<seq<Key>>>, a: Api): (Api, seq<Entry<string>>, End) {
    if plan.Ok? && plan.value.Some? then var (b, entries, end) := Loop(a, uid, plan.value.value, []); (b, Sorted(entries), end)
    else (a, [], Skipped)
  }

  function Pass(p: Parent, uid: string, plan: Result<Option<seq<Key>>>, listing: seq<Key>, a: Api): (Parent, Api, End) {
    if p.deleting then Finalize(p, uid, listing, a)
    else if MULTI_FINALIZER in p.finalizers then Migrate(p, uid, plan, a)
    else if Ans(a) == Fails then (p, Asked(a), Errored)
    else Migrate(p.(finalizers := p.finalizers + [MULTI_FINALIZER]), uid, plan, Asked(a))
  }

  // ----- The reconciler, call by call -----

  class MultiNamespaceReconciler {
    const uid: string
    var parent: Parent
    var api: Api

    constructor (uid: string, parent: Parent, api: Api)
      ensures this.uid == uid && this.parent == parent && this.api == api
    {
      this.uid, this.parent, this.api := uid, parent, api;
    }

    method DeleteChildMigration(k: Key) returns (ok: bool)
      modifies this`api
      ensures (api, ok) == DeleteChild(old(api), k)
    {
      var next := DeleteChild(api, k);
      api, ok := next.0, next.1;
    }

    method CreateNamespacedMigration(k: Key) returns (end: End)
      modifies this`api
      ensures (api, end) == Adopt(old(api), k, uid)
    {
      var made := CreateChild(api, k, uid);
      api := made.0;
      if made.1 == Made {
        return MadeOne;
      }
      if made.1 == CreateFails {
        return Errored;
      }
      var got := GetChild(api, k);
      api := got.0;
      if got.1.Err? || got.1.value.None? {
        return Errored;
      }
      if OwnedBy(got.1.value.value, uid) {
        return MadeOne;
      }
      if !OwnedByAny(got.1.value.value) {
        return Conflicted;
      }
      var gone := DeleteChildMigration(k);
      if !gone {
        return Errored;
      }
      var again := CreateChild(api, k, uid);
      api := again.0;
      return if again.1 == Made then MadeOne else Errored;
    }

    method VisitNamespace(k: Key) returns (end: End, status: string)
      modifies this`api
      ensures (api, end, status) == Visit(old(api), k, uid)
    {
      status := "";
      var got := GetChild(api, k);
      api := got.0;
      if got.1.Err? {
        return Errored, "";
      }
      if got.1.value.None? {
        end := CreateNamespacedMigration(k);
        return;
      }
      var child := got.1.value.value;
      if OwnedBy(child, uid) {
        return AllOwned, child.status;
      }
      if !OwnedByAny(child) {
        return Conflicted, "";
      }
      var gone := DeleteChildMigration(k);
      if !gone {
        return Errored, "";
      }
      end := CreateNamespacedMigration(k);
    }

    /** The loop of a pass over the plan's namespaces. */
    method VisitNamespaces(keys: seq<Key>) returns (entries: seq<Entry<string>>, end: End)
      modifies this`api
      ensures (api, entries, end) == Loop(old(api), uid, keys, [])
    {
      entries := [];
      for i := 0 to |keys|
        modifies this`api
        invariant Loop(old(api), uid, keys, []) == Loop(api, uid, keys[i..], entries)
      {
        var status: string;
        end, status := VisitNamespace(keys[i]);
        if end != AllOwned {
          return;
        }
        entries := entries + [Entry(keys[i].namespace, status)];
      }
      end := AllOwned;
    }

    method RunFinalizer(listing: seq<Key>) returns (end: End)
      modifies this
      ensures (parent, api, end) == Finalize(old(parent), uid, listing, old(api))
    {
      ghost var p, a := parent, api;
      if Ans(api) == Fails {
        api := Asked(api);
        return Errored;
      }
      api := Asked(api);
      for i := 0 to |listing|
        modifies this`api
        invariant DeleteOwned(Asked(a), uid, listing) == DeleteOwned(api, uid, listing[i..])
      {
        var k := listing[i];
        if k in api.children && OwnedBy(api.children[k], uid) && !api.children[k].deleting {
          var ok := DeleteChildMigration(k);
          if !ok {
            return Errored;
          }
        }
      }
      if Ans(api) == Fails {
        api := Asked(api);
        return Errored;
      }
      api := Asked(api);
      if OwnedKeys(api.children, uid) != {} {
        return Skipped;
      }
      if Ans(api) == Fails {
        api := Asked(api);
        return Errored;
      }
      api := Asked(api);
      parent := parent.(finalizers := WithoutFinalizer(parent.finalizers));
      return Skipped;
    }

    method UpdateStatus(status: ParentStatus, end: End) returns (r: End)
      modifies this
      ensures (parent, api, r) == StoreStatus(old(parent), status, old(api), end)
    {
      if status == parent.status {
        return end;
      }
      var failed := Ans(api) == Fails;
      api := Asked(api);
      if failed {
        return Errored;
      }
      parent := parent.(status := status);
      return end;
    }

    method MigrateNamespaces(plan: Result<Option<seq<Key>>>) returns (end: End)
      modifies this
      ensures (parent, api, end) == Migrate(old(parent), uid, plan, old(api))
    {
      if !parent.hasPlanRef {
        return Skipped;
      }
      if plan.Err? {
        return Errored;
      }
      if plan.value.None? {
        end := UpdateStatus(parent.status.(invalidPlan := true), Skipped);
        return;
      }
      var cleared := parent.status.(invalidPlan := false, conflict := false);
      if parent.status.blocked {
        end := UpdateStatus(cleared, Skipped);
        return;
      }
      var entries: seq<Entry<string>>;
      entries, end := VisitNamespaces(plan.value.value);
      if end == MadeOne || end == Errored {
        return;
      }
      end := UpdateStatus(cleared.(conflict := end == Conflicted, namespaces := Sorted(entries)), end);
    }

    method Reconcile(plan: Result<Option<seq<Key>>>, listing: seq<Key>) returns (end: End)
      modifies this
      ensures (parent, api, end) == Pass(old(parent), uid, plan, listing, old(api))
    {
      if parent.deleting {
        end := RunFinalizer(listing);
        return;
      }
      if MULTI_FINALIZER !in parent.finalizers {
        var failed := Ans(api) == Fails;
        api := Asked(api);
        if failed {
          return Errored;
        }
        parent := parent.(finalizers := parent.finalizers + [MULTI_FINALIZER]);
      }
      end := MigrateNamespaces(plan);
    }
  }
}
