/** The conditions of a status: a list used as a map from type to condition. */
module Conditions {
  import opened Basics

  datatype ConditionStatus = ConditionTrue | ConditionFalse | ConditionUnknown

  datatype Condition = Condition(kind: string, status: ConditionStatus, reason: string, category: string, message: string, time: nat)

  const READY := "Ready"
  const RECONCILE_FAILED := "ReconcileFailed"
  const CRITICAL := "Critical"
  const REQUIRED := "Required"

  /** Everything but the transition time, which is what Equal compares. */
  function Content(c: Condition): Condition {
    c.(time := 0)
  }

  function Contents(cs: seq<Condition>): seq<Condition> {
    seq(|cs|, i requires 0 <= i < |cs| => Content(cs[i]))
  }

  predicate UniqueTypes(cs: seq<Condition>) {
    forall i, j :: 0 <= i < j < |cs| ==> cs[i].kind != cs[j].kind
  }

  /** The first condition of a type. */
  function Find(cs: seq<Condition>, kind: string): Option<Condition> {
    if cs == [] then None
    else if cs[0].kind == kind then Some(cs[0])
    else Find(cs[1..], kind)
  }

  predicate IsTrue(c: Option<Condition>) {
    c.Some? && c.value.status == ConditionTrue
  }

  // ----- The list operations -----

  /** SetCondition: the first condition of the type is replaced, with a new time, unless it is equal; otherwise appended. */
  function SetIn(cs: seq<Condition>, c: Condition, now: nat): seq<Condition> {
    if cs == [] then [c.(time := now)]
    else if cs[0].kind == c.kind then [if Content(cs[0]) == Content(c) then cs[0] else c.(time := now)] + cs[1..]
    else [cs[0]] + SetIn(cs[1..], c, now)
  }

  function DeleteIn(cs: seq<Condition>, kinds: seq<string>): seq<Condition> {
    if cs == [] then []
    else if cs[0].kind in kinds then DeleteIn(cs[1..], kinds)
    else [cs[0]] + DeleteIn(cs[1..], kinds)
  }

  /** CopyConditionTimestampsFrom */
  function Retimed(cs: seq<Condition>, other: seq<Condition>): seq<Condition> {
    seq(|cs|, i requires 0 <= i < |cs| =>
      var found := Find(other, cs[i].kind);
      if found.Some? then cs[i].(time := found.value.time) else cs[i])
  }

  // ----- The map they stand for -----

  ghost function AsMap(cs: seq<Condition>): map<string, Condition> {
    map k | k in (set c | c in cs :: c.kind) && Find(cs, k).Some? :: Find(cs, k).value
  }

  function SetOn(m: map<string, Condition>, c: Condition, now: nat): map<string, Condition> {
    if c.kind in m && Content(m[c.kind]) == Content(c) then m else m[c.kind := c.(time := now)]
  }

  function DeleteOn(m: map<string, Condition>, kinds: seq<string>): map<string, Condition> {
    map k | k in m && k !in kinds :: m[k]
  }

  lemma {:induction false} FindAt(cs: seq<Condition>, kind: string)
    ensures Find(cs, kind).Some? ==> Find(cs, kind).value in cs && Find(cs, kind).value.kind == kind
    ensures Find(cs, kind).None? <==> forall c :: c in cs ==> c.kind != kind
  {
    if cs != [] {
      assert cs == [cs[0]] + cs[1..];
      FindAt(cs[1..], kind);
    }
  }

  lemma InMap(cs: seq<Condition>, k: string)
    ensures k in AsMap(cs) <==> Find(cs, k).Some?
    ensures k in AsMap(cs) ==> Some(AsMap(cs)[k]) == Find(cs, k)
  {
    FindAt(cs, k);
  }

  /** With unique types the list holds exactly the map's conditions. */
  lemma {:induction false} UniqueFind(cs: seq<Condition>, i: nat)
    requires UniqueTypes(cs) && i < |cs|
    ensures Find(cs, cs[i].kind) == Some(cs[i])
  {
    if i > 0 {
      UniqueFind(cs[1..], i - 1);
    }
  }

  lemma {:induction false} FindAfterSet(cs: seq<Condition>, c: Condition, now: nat, k: string)
    ensures Find(SetIn(cs, c, now), k) ==
      if k != c.kind then Find(cs, k)
      else if Find(cs, k).Some? && Content(Find(cs, k).value) == Content(c) then Find(cs, k)
      else Some(c.(time := now))
  {
    if cs != [] && cs[0].kind != c.kind {
      var rest := SetIn(cs[1..], c, now);
      assert SetIn(cs, c, now)[1..] == rest;
      FindAfterSet(cs[1..], c, now, k);
    } else if cs != [] {
      assert SetIn(cs, c, now)[1..] == cs[1..];
    }
  }

  lemma {:induction false} FindAfterDelete(cs: seq<Condition>, kinds: seq<string>, k: string)
    ensures Find(DeleteIn(cs, kinds), k) == if k in kinds then None else Find(cs, k)
  {
    if cs != [] {
      FindAfterDelete(cs[1..], kinds, k);
      if cs[0].kind !in kinds {
        assert DeleteIn(cs, kinds)[1..] == DeleteIn(cs[1..], kinds);
      }
    }
  }

  /** Types of the result, so that uniqueness carries over. */
  lemma {:induction false} SetKeepsUnique(cs: seq<Condition>, c: Condition, now: nat)
    requires UniqueTypes(cs)
    ensures UniqueTypes(SetIn(cs, c, now))
    ensures forall d :: d in SetIn(cs, c, now) ==> d.kind == c.kind || d in cs
  {
    if cs != [] && cs[0].kind != c.kind {
      SetKeepsUnique(cs[1..], c, now);
    }
  }

  lemma {:induction false} DeleteKeepsUnique(cs: seq<Condition>, kinds: seq<string>)
    requires UniqueTypes(cs)
    ensures UniqueTypes(DeleteIn(cs, kinds))
    ensures forall d :: d in DeleteIn(cs, kinds) ==> d in cs
  {
    if cs != [] {
      DeleteKeepsUnique(cs[1..], kinds);
      assert forall d :: d in cs[1..] ==> d.kind != cs[0].kind;
    }
  }

  // ----- Any sequence of operations -----

  datatype Op = SetOp(condition: Condition, now: nat) | DeleteOp(kinds: seq<string>)

  function Applied(cs: seq<Condition>, op: Op): seq<Condition> {
    match op
    case SetOp(c, now) => SetIn(cs, c, now)
    case DeleteOp(kinds) => DeleteIn(cs, kinds)
  }

  function AppliedOn(m: map<string, Condition>, op: Op): map<string, Condition> {
    match op
    case SetOp(c, now) => SetOn(m, c, now)
    case DeleteOp(kinds) => DeleteOn(m, kinds)
  }

  function AppliedAll(cs: seq<Condition>, ops: seq<Op>): seq<Condition>
    decreases ops
  {
    if ops == [] then cs else AppliedAll(Applied(cs, ops[0]), ops[1..])
  }

  function AppliedAllOn(m: map<string, Condition>, ops: seq<Op>): map<string, Condition>
    decreases ops
  {
    if ops == [] then m else AppliedAllOn(AppliedOn(m, ops[0]), ops[1..])
  }

  lemma StepRefinesMap(cs: seq<Condition>, op: Op)
    requires UniqueTypes(cs)
    ensures UniqueTypes(Applied(cs, op)) && AsMap(Applied(cs, op)) == AppliedOn(AsMap(cs), op)
  {
    match op {
      case SetOp(c, now) => SetKeepsUnique(cs, c, now);
      case DeleteOp(kinds) => DeleteKeepsUnique(cs, kinds);
    }
    forall k
      ensures k in AsMap(Applied(cs, op)) <==> k in AppliedOn(AsMap(cs), op)
      ensures k in AsMap(Applied(cs, op)) ==> AsMap(Applied(cs, op))[k] == AppliedOn(AsMap(cs), op)[k]
    {
      InMap(cs, k);
      InMap(Applied(cs, op), k);
      match op {
        case SetOp(c, now) => FindAfterSet(cs, c, now, k);
        case DeleteOp(kinds) => FindAfterDelete(cs, kinds, k);
      }
    }
  }

  /** Conditions refine a map: from unique types, any sequence of set and delete operations keeps types unique, acts
      as on the map, and the list holds exactly the map's conditions. */
  lemma {:induction false} ConditionsRefineMap(cs: seq<Condition>, ops: seq<Op>)
    requires UniqueTypes(cs)
    ensures UniqueTypes(AppliedAll(cs, ops)) && AsMap(AppliedAll(cs, ops)) == AppliedAllOn(AsMap(cs), ops)
    ensures forall c :: c in AppliedAll(cs, ops) <==> c.kind in AppliedAllOn(AsMap(cs), ops) && AppliedAllOn(AsMap(cs), ops)[c.kind] == c
    decreases ops
  {
    if ops == [] {
      forall c ensures c in cs <==> c.kind in AsMap(cs) && AsMap(cs)[c.kind] == c {
        FindAt(cs, c.kind);
        if c in cs {
          var i :| 0 <= i < |cs| && cs[i] == c;
          UniqueFind(cs, i);
        }
      }
    } else {
      StepRefinesMap(cs, ops[0]);
      ConditionsRefineMap(Applied(cs, ops[0]), ops[1..]);
    }
  }

  // ----- The clock never decides -----

  /** Two operations that differ at most in the time they are made. */
  predicate SameOp(a: Op, b: Op) {
    match a
    case SetOp(c, _) => b.SetOp? && Content(b.condition) == Content(c)
    case DeleteOp(_) => b == a
  }

  predicate SameOps(a: seq<Op>, b: seq<Op>) {
    |a| == |b| && forall i :: 0 <= i < |a| ==> SameOp(a[i], b[i])
  }

  lemma {:induction false} StepIgnoresClock(cs: seq<Condition>, ds: seq<Condition>, a: Op, b: Op)
    requires Contents(cs) == Contents(ds) && SameOp(a, b)
    ensures Contents(Applied(cs, a)) == Contents(Applied(ds, b))
    decreases cs
  {
    assert |cs| == |Contents(cs)| == |ds|;
    if cs != [] {
      assert Content(cs[0]) == Contents(cs)[0] == Contents(ds)[0] == Content(ds[0]);
      assert Contents(cs[1..]) == Contents(cs)[1..] == Contents(ds)[1..] == Contents(ds[1..]);
      StepIgnoresClock(cs[1..], ds[1..], a, b);
      ContentsCons(cs[0], Applied(cs[1..], a));
      ContentsCons(ds[0], Applied(ds[1..], b));
      if a.SetOp? && cs[0].kind == a.condition.kind {
        var c := if Content(cs[0]) == Content(a.condition) then cs[0] else a.condition.(time := a.now);
        var d := if Content(ds[0]) == Content(b.condition) then ds[0] else b.condition.(time := b.now);
        ContentsCons(c, cs[1..]);
        ContentsCons(d, ds[1..]);
      }
    }
  }

  lemma ContentsCons(c: Condition, cs: seq<Condition>)
    ensures Contents([c] + cs) == [Content(c)] + Contents(cs)
  {
    assert |Contents([c] + cs)| == |[Content(c)] + Contents(cs)|;
  }

  /** What a status says depends on the operations made, never on when they were made. */
  lemma {:induction false} ContentIgnoresClock(cs: seq<Condition>, ds: seq<Condition>, a: seq<Op>, b: seq<Op>)
    requires Contents(cs) == Contents(ds) && SameOps(a, b)
    ensures Contents(AppliedAll(cs, a)) == Contents(AppliedAll(ds, b))
    decreases |a|
  {
    if a != [] {
      StepIgnoresClock(cs, ds, a[0], b[0]);
      ContentIgnoresClock(Applied(cs, a[0]), Applied(ds, b[0]), a[1..], b[1..]);
    }
  }

  // ----- persistPlan's comparison -----

  /** A status: its conditions and everything else in it. */
  datatype Status<T(==)> = Status(rest: T, conditions: seq<Condition>)

  function StatusChanged<T(==)>(orig: Status<T>, desired: Status<T>): bool {
    orig.(conditions := Retimed(orig.conditions, desired.conditions)) != desired
  }

  lemma RetimedContents(cs: seq<Condition>, other: seq<Condition>)
    ensures Contents(Retimed(cs, other)) == Contents(cs)
  {
  }

  /** A status without a change of content is not written, and one with a change always is: for unique types a change
      is seen if and only if the statuses differ in something other than condition timestamps. */
  lemma StatusChangedExactly<T>(orig: Status<T>, desired: Status<T>)
    requires UniqueTypes(desired.conditions)
    ensures StatusChanged(orig, desired) <==> orig.rest != desired.rest || Contents(orig.conditions) != Contents(desired.conditions)
  {
    var cs, ds := orig.conditions, desired.conditions;
    RetimedContents(cs, ds);
    if Contents(cs) == Contents(ds) {
      assert |cs| == |Contents(cs)| == |ds|;
      forall i | 0 <= i < |cs| ensures Retimed(cs, ds)[i] == ds[i] {
        assert Content(cs[i]) == Contents(cs)[i] == Contents(ds)[i] == Content(ds[i]);
        UniqueFind(ds, i);
      }
      assert Retimed(cs, ds) == ds;
    }
  }

  // ----- Field by field -----

  /** The two differ in nothing but the transition time. */
  predicate SaysTheSame(c: Condition, d: Condition) {
    c.kind == d.kind && c.status == d.status && c.reason == d.reason && c.category == d.category && c.message == d.message
  }

  /** Setting a condition, field by field: afterwards the first condition of its type says what was set. It keeps its time
      if it said so already, and otherwise has the time of the call; every condition of another type is as before. */
  lemma SetExactly(cs: seq<Condition>, c: Condition, now: nat, kind: string)
    ensures
      var was, now_ := Find(cs, kind), Find(SetIn(cs, c, now), kind);
      if kind != c.kind then now_ == was
      else now_.Some? && SaysTheSame(now_.value, c)
           && now_.value.time == (if was.Some? && SaysTheSame(was.value, c) then was.value.time else now)
  {
    FindAfterSet(cs, c, now, kind);
    FindAt(cs, kind);
  }

  /** Setting changes one place at most: conditions keep their positions, and a new type goes to the end. */
  lemma {:induction false} SetInPlace(cs: seq<Condition>, c: Condition, now: nat, i: nat)
    requires i < |cs|
    ensures
      var cs' := SetIn(cs, c, now);
      && |cs'| == (if Find(cs, c.kind).Some? then |cs| else |cs| + 1) && cs'[i].kind == cs[i].kind
      && (cs[i].kind != c.kind ==> cs'[i] == cs[i])
      && (Find(cs, c.kind).None? ==> cs'[|cs|] == c.(time := now))
  {
    if cs[0].kind != c.kind {
      if |cs| == 1 {
        assert cs[1..] == [];
      } else {
        SetInPlace(cs[1..], c, now, if i == 0 then 0 else i - 1);
      }
    }
  }

  /** The comparison before a write, field by field: for unique types nothing is written if and only if the rest is equal
      and the conditions say the same, position by position. */
  lemma UnchangedExactly<T>(orig: Status<T>, desired: Status<T>)
    requires UniqueTypes(desired.conditions)
    ensures !StatusChanged(orig, desired) <==>
      && orig.rest == desired.rest && |orig.conditions| == |desired.conditions|
      && forall i :: 0 <= i < |orig.conditions| ==> SaysTheSame(orig.conditions[i], desired.conditions[i])
  {
    var cs, ds := orig.conditions, desired.conditions;
    StatusChangedExactly(orig, desired);
    assert |Contents(cs)| == |cs| && |Contents(ds)| == |ds|;
    if Contents(cs) == Contents(ds) {
      forall i | 0 <= i < |cs| ensures SaysTheSame(cs[i], ds[i]) {
        assert Content(cs[i]) == Contents(cs)[i] == Contents(ds)[i] == Content(ds[i]);
      }
    }
    if |cs| == |ds| && forall i :: 0 <= i < |cs| ==> SaysTheSame(cs[i], ds[i]) {
      forall i | 0 <= i < |cs| ensures Contents(cs)[i] == Contents(ds)[i] {
        assert SaysTheSame(cs[i], ds[i]);
      }
    }
  }

  // ----- Repeated passes stop writing -----

  function Kinds(cs: seq<Condition>): seq<string> {
    seq(|cs|, i requires 0 <= i < |cs| => cs[i].kind)
  }

  function Drop(ks: seq<string>, out: set<string>): seq<string> {
    if ks == [] then []
    else if ks[0] in out then Drop(ks[1..], out)
    else [ks[0]] + Drop(ks[1..], out)
  }

  function KindsAfter(ks: seq<string>, op: Op): seq<string> {
    match op
    case SetOp(c, _) => if c.kind in ks then ks else ks + [c.kind]
    case DeleteOp(kinds) => Drop(ks, SetOf(kinds))
  }

  function KindsAfterAll(ks: seq<string>, ops: seq<Op>): seq<string>
    decreases ops
  {
    if ops == [] then ks else KindsAfterAll(KindsAfter(ks, ops[0]), ops[1..])
  }

  function DeletedKinds(ops: seq<Op>): set<string> {
    if ops == [] then {} else (if ops[0].DeleteOp? then SetOf(ops[0].kinds) else {}) + DeletedKinds(ops[1..])
  }

  function SetKinds(ops: seq<Op>): set<string> {
    if ops == [] then {} else (if ops[0].SetOp? then {ops[0].condition.kind} else {}) + SetKinds(ops[1..])
  }

  lemma KindsCons(c: Condition, cs: seq<Condition>)
    ensures Kinds([c] + cs) == [c.kind] + Kinds(cs)
  {
    assert |Kinds([c] + cs)| == |[c.kind] + Kinds(cs)|;
  }

  lemma {:induction false} KindsOfSet(cs: seq<Condition>, c: Condition, now: nat)
    ensures Kinds(SetIn(cs, c, now)) == if c.kind in Kinds(cs) then Kinds(cs) else Kinds(cs) + [c.kind]
  {
    if cs != [] {
      assert cs == [cs[0]] + cs[1..];
      KindsCons(cs[0], cs[1..]);
      if cs[0].kind == c.kind {
        KindsCons(SetIn(cs, c, now)[0], cs[1..]);
      } else {
        KindsOfSet(cs[1..], c, now);
        KindsCons(cs[0], SetIn(cs[1..], c, now));
      }
    }
  }

  lemma {:induction false} KindsOfDelete(cs: seq<Condition>, kinds: seq<string>)
    ensures Kinds(DeleteIn(cs, kinds)) == Drop(Kinds(cs), SetOf(kinds))
  {
    if cs != [] {
      assert cs == [cs[0]] + cs[1..];
      KindsCons(cs[0], cs[1..]);
      KindsOfDelete(cs[1..], kinds);
      KindsCons(cs[0], DeleteIn(cs[1..], kinds));
      assert Kinds(cs)[1..] == Kinds(cs[1..]);
    }
  }

  lemma {:induction false} KindsOfAll(cs: seq<Condition>, ops: seq<Op>)
    ensures Kinds(AppliedAll(cs, ops)) == KindsAfterAll(Kinds(cs), ops)
    decreases ops
  {
    if ops != [] {
      match ops[0] {
        case SetOp(c, now) => KindsOfSet(cs, c, now);
        case DeleteOp(kinds) => KindsOfDelete(cs, kinds);
      }
      KindsOfAll(Applied(cs, ops[0]), ops[1..]);
    }
  }

  lemma {:induction false} DropIn(ks: seq<string>, out: set<string>, k: string)
    ensures k in Drop(ks, out) <==> k in ks && k !in out
  {
    if ks != [] {
      DropIn(ks[1..], out, k);
    }
  }

  lemma {:induction false} DropNone(ks: seq<string>)
    ensures Drop(ks, {}) == ks
  {
    if ks != [] {
      DropNone(ks[1..]);
    }
  }

  lemma {:induction false} DropAppend(ks: seq<string>, k: string, out: set<string>)
    ensures Drop(ks + [k], out) == Drop(ks, out) + (if k in out then [] else [k])
  {
    if ks != [] {
      assert (ks + [k])[1..] == ks[1..] + [k];
      DropAppend(ks[1..], k, out);
    }
  }

  lemma {:induction false} DropTwice(ks: seq<string>, a: set<string>, b: set<string>)
    ensures Drop(Drop(ks, a), b) == Drop(ks, a + b)
  {
    if ks != [] {
      DropTwice(ks[1..], a, b);
    }
  }

  /** The order a pass leaves depends only on the kinds it never deletes. */
  lemma {:induction false} OrderSimulates(s: seq<string>, t: seq<string>, ops: seq<Op>)
    requires Drop(s, DeletedKinds(ops)) == Drop(t, DeletedKinds(ops))
    ensures KindsAfterAll(s, ops) == KindsAfterAll(t, ops)
    decreases ops
  {
    if ops == [] {
      DropNone(s);
      DropNone(t);
    } else {
      var rest := DeletedKinds(ops[1..]);
      match ops[0] {
        case SetOp(c, _) =>
          assert DeletedKinds(ops) == rest;
          DropIn(s, rest, c.kind);
          DropIn(t, rest, c.kind);
          DropAppend(s, c.kind, rest);
          DropAppend(t, c.kind, rest);
        case DeleteOp(kinds) =>
          DropTwice(s, SetOf(kinds), rest);
          DropTwice(t, SetOf(kinds), rest);
      }
      OrderSimulates(KindsAfter(s, ops[0]), KindsAfter(t, ops[0]), ops[1..]);
    }
  }

  /** Kinds a pass never deletes keep their places once those it sets are there. */
  lemma {:induction false} KeptStayPut(ks: seq<string>, ops: seq<Op>, out: set<string>)
    requires DeletedKinds(ops) <= out && forall k :: k in SetKinds(ops) ==> k in out || k in ks
    ensures Drop(KindsAfterAll(ks, ops), out) == Drop(ks, out)
    decreases ops
  {
    if ops != [] {
      var after := KindsAfter(ks, ops[0]);
      match ops[0] {
        case SetOp(c, _) =>
          DropAppend(ks, c.kind, out);
        case DeleteOp(kinds) =>
          DropTwice(ks, SetOf(kinds), out);
          assert SetOf(kinds) + out == out;
      }
      forall k | k in SetKinds(ops[1..]) ensures k in out || k in after {
        DropIn(ks, out, k);
        DropIn(after, out, k);
      }
      KeptStayPut(after, ops[1..], out);
    }
  }

  lemma {:induction false} SetKindsArePresent(ks: seq<string>, ops: seq<Op>, k: string)
    requires (k in ks || k in SetKinds(ops)) && k !in DeletedKinds(ops)
    ensures k in KindsAfterAll(ks, ops)
    decreases ops
  {
    if ops != [] {
      if ops[0].DeleteOp? {
        DropIn(ks, SetOf(ops[0].kinds), k);
      }
      SetKindsArePresent(KindsAfter(ks, ops[0]), ops[1..], k);
    }
  }

  /** The content a pass leaves for a kind, given the content it finds. */
  function ContentAfter(found: Option<Condition>, ops: seq<Op>, k: string): Option<Condition>
    decreases ops
  {
    if ops == [] then found
    else
      ContentAfter(match ops[0]
                   case SetOp(c, _) => if c.kind == k then Some(Content(c)) else found
                   case DeleteOp(kinds) => if k in kinds then None else found, ops[1..], k)
  }

  function ContentOf(c: Option<Condition>): Option<Condition> {
    if c.None? then None else Some(Content(c.value))
  }

  lemma {:induction false} FindAfterAll(cs: seq<Condition>, ops: seq<Op>, k: string)
    ensures ContentOf(Find(AppliedAll(cs, ops), k)) == ContentAfter(ContentOf(Find(cs, k)), ops, k)
    decreases ops
  {
    if ops != [] {
      match ops[0] {
        case SetOp(c, now) => FindAfterSet(cs, c, now, k);
        case DeleteOp(kinds) => FindAfterDelete(cs, kinds, k);
      }
      FindAfterAll(Applied(cs, ops[0]), ops[1..], k);
    }
  }

  /** Either the pass touches the kind, and what it finds does not matter, or it leaves what it finds. */
  lemma {:induction false} ContentAfterSettles(found: Option<Condition>, other: Option<Condition>, ops: seq<Op>, k: string)
    ensures ContentAfter(found, ops, k) == ContentAfter(other, ops, k) || (ContentAfter(found, ops, k) == found && ContentAfter(other, ops, k) == other)
    decreases ops
  {
    if ops != [] {
      var step := (f: Option<Condition>) =>
        match ops[0]
        case SetOp(c, _) => if c.kind == k then Some(Content(c)) else f
        case DeleteOp(kinds) => if k in kinds then None else f;
      ContentAfterSettles(step(found), step(other), ops[1..], k);
    }
  }

  lemma SameKindsAndContents(cs: seq<Condition>, ds: seq<Condition>)
    requires UniqueTypes(cs) && UniqueTypes(ds) && Kinds(cs) == Kinds(ds)
    requires forall k :: ContentOf(Find(cs, k)) == ContentOf(Find(ds, k))
    ensures Contents(cs) == Contents(ds)
  {
    assert |cs| == |Kinds(cs)| == |ds|;
    forall i | 0 <= i < |cs| ensures Contents(cs)[i] == Contents(ds)[i] {
      UniqueFind(cs, i);
      UniqueFind(ds, i);
      assert cs[i].kind == Kinds(cs)[i] == Kinds(ds)[i] == ds[i].kind;
      assert ContentOf(Find(cs, cs[i].kind)) == ContentOf(Find(ds, cs[i].kind));
    }
  }

  lemma SecondPassSettles(cs: seq<Condition>, ops: seq<Op>)
    requires UniqueTypes(cs)
    ensures
      var two := AppliedAll(AppliedAll(cs, ops), ops);
      Contents(AppliedAll(two, ops)) == Contents(two)
  {
    var one := AppliedAll(cs, ops);
    var two := AppliedAll(one, ops);
    var three := AppliedAll(two, ops);
    ConditionsRefineMap(cs, ops);
    ConditionsRefineMap(one, ops);
    ConditionsRefineMap(two, ops);
    KindsOfAll(cs, ops);
    KindsOfAll(one, ops);
    KindsOfAll(two, ops);
    forall k | k in SetKinds(ops) ensures k in DeletedKinds(ops) || k in Kinds(one) {
      if k !in DeletedKinds(ops) {
        SetKindsArePresent(Kinds(cs), ops, k);
      }
    }
    KeptStayPut(Kinds(one), ops, DeletedKinds(ops));
    OrderSimulates(Kinds(one), Kinds(two), ops);
    forall k ensures ContentOf(Find(three, k)) == ContentOf(Find(two, k)) {
      FindAfterAll(one, ops, k);
      FindAfterAll(two, ops, k);
      ContentAfterSettles(ContentOf(Find(one, k)), ContentOf(Find(two, k)), ops, k);
    }
    SameKindsAndContents(three, two);
  }

  /** Reconciling does not feed itself: passes that make the same set and delete operations, at whatever times, stop
      causing status writes after the second one. */
  lemma RepeatedPassesStopWriting<T>(rest: T, stored: seq<Condition>, first: seq<Op>, second: seq<Op>, third: seq<Op>)
    requires UniqueTypes(stored) && SameOps(first, second) && SameOps(first, third)
    ensures
      var two := AppliedAll(AppliedAll(stored, first), second);
      !StatusChanged(Status(rest, two), Status(rest, AppliedAll(two, third)))
  {
    var one := AppliedAll(stored, first);
    var two := AppliedAll(one, second);
    assert SameOps(second, first) && SameOps(third, first);
    ContentIgnoresClock(one, one, second, first);
    ContentIgnoresClock(two, AppliedAll(one, first), third, first);
    SecondPassSettles(stored, first);
    ConditionsRefineMap(stored, first);
    ConditionsRefineMap(one, second);
    ConditionsRefineMap(two, third);
    StatusChangedExactly(Status(rest, two), Status(rest, AppliedAll(two, third)));
  }

  lemma SameContentsSameKinds(cs: seq<Condition>, ds: seq<Condition>)
    requires Contents(cs) == Contents(ds)
    ensures Kinds(cs) == Kinds(ds)
  {
    assert |cs| == |Contents(cs)| == |ds|;
    forall i | 0 <= i < |cs| ensures cs[i].kind == ds[i].kind {
      assert Contents(cs)[i].kind == Contents(ds)[i].kind;
    }
  }

  lemma OrderDecides(cs: seq<Condition>, ops: seq<Op>)
    requires UniqueTypes(cs)
    ensures
      var one := AppliedAll(cs, ops);
      Contents(AppliedAll(one, ops)) == Contents(one) <==> KindsAfterAll(Kinds(one), ops) == Kinds(one)
  {
    var one := AppliedAll(cs, ops);
    var two := AppliedAll(one, ops);
    KindsOfAll(one, ops);
    ConditionsRefineMap(cs, ops);
    ConditionsRefineMap(one, ops);
    if Contents(two) == Contents(one) {
      SameContentsSameKinds(two, one);
    }
    forall k ensures ContentOf(Find(two, k)) == ContentOf(Find(one, k)) {
      FindAfterAll(cs, ops, k);
      FindAfterAll(one, ops, k);
      ContentAfterSettles(ContentOf(Find(cs, k)), ContentOf(Find(one, k)), ops, k);
    }
    if Kinds(two) == Kinds(one) {
      SameKindsAndContents(two, one);
    }
  }

  /** Exactly when: the second of two passes making the same operations causes a status write if and only if the order
      of kinds the first pass left is not one that the operations keep. */
  lemma SecondPassWritesIff<T>(rest: T, stored: seq<Condition>, first: seq<Op>, second: seq<Op>)
    requires UniqueTypes(stored) && SameOps(first, second)
    ensures
      var one := AppliedAll(stored, first);
      StatusChanged(Status(rest, one), Status(rest, AppliedAll(one, second))) <==> KindsAfterAll(Kinds(one), first) != Kinds(one)
  {
    var one := AppliedAll(stored, first);
    assert SameOps(second, first);
    ContentIgnoresClock(one, one, second, first);
    ConditionsRefineMap(stored, first);
    ConditionsRefineMap(one, second);
    StatusChangedExactly(Status(rest, one), Status(rest, AppliedAll(one, second)));
    OrderDecides(stored, first);
  }

  function Bare(kind: string): Condition {
    Condition(kind, ConditionFalse, "", REQUIRED, "", 0)
  }

  /** A pass that clears Ready, sets it again, then sets another condition. */
  function ClearAndSet(time: nat): seq<Op> {
    [DeleteOp([READY]), SetOp(Bare(READY), time), SetOp(Bare(RECONCILE_FAILED), time)]
  }

  lemma ClearAndSetKinds(ks: seq<string>, time: nat)
    ensures READY != RECONCILE_FAILED
    ensures
      var kept := Drop(ks, {READY});
      KindsAfterAll(ks, ClearAndSet(time)) == if RECONCILE_FAILED in kept then kept + [READY] else kept + [READY] + [RECONCILE_FAILED]
  {
    var ops := ClearAndSet(time);
    assert READY[2] != RECONCILE_FAILED[2];
    var two, last := [ops[1], ops[2]], [ops[2]];
    assert ops[1..] == two && two[1..] == last && last[1..] == [];
    assert SetOf([READY]) == {READY};
    DropIn(ks, {READY}, READY);
    var kept := Drop(ks, {READY});
    assert KindsAfterAll(ks, ops) == KindsAfterAll(kept, two) == KindsAfterAll(kept + [READY], last) == KindsAfterAll(KindsAfter(kept + [READY], ops[2]), last[1..]);
  }

  /** Two passes can be needed: a condition deleted and set again moves behind one that was set after it. */
  lemma SecondPassMayWrite<T>(rest: T, time: nat)
    ensures
      var one := AppliedAll([], ClearAndSet(time));
      StatusChanged(Status(rest, one), Status(rest, AppliedAll(one, ClearAndSet(time))))
  {
    var ops := ClearAndSet(time);
    var one := AppliedAll([], ops);
    var two := AppliedAll(one, ops);
    KindsOfAll([], ops);
    KindsOfAll(one, ops);
    ClearAndSetKinds([], time);
    ClearAndSetKinds([READY, RECONCILE_FAILED], time);
    var both, failed := [READY, RECONCILE_FAILED], [RECONCILE_FAILED];
    assert both[1..] == failed && failed[1..] == [];
    assert Drop(both, {READY}) == Drop(failed, {READY}) == failed;
    assert Kinds(one) == [READY, RECONCILE_FAILED] && Kinds(two) == [RECONCILE_FAILED, READY];
    assert Kinds(one)[0] == one[0].kind && Kinds(two)[0] == two[0].kind;
    assert Retimed(one, two)[0].kind == READY;
  }

  // ----- The collection, edited in place -----

  class Collection {
    var list: seq<Condition>

    constructor ()
      ensures list == [] && UniqueTypes(list)
    {
      list := [];
    }

    /** The index of the first condition of a type, the length of the list if there is none. */
    method FindCondition(kind: string) returns (i: nat)
      ensures i <= |list| && forall k :: 0 <= k < i ==> list[k].kind != kind
      ensures i < |list| ==> list[i].kind == kind && Find(list, kind) == Some(list[i])
      ensures i == |list| <==> Find(list, kind).None?
    {
      for n := 0 to |list|
        invariant forall k :: 0 <= k < n ==> list[k].kind != kind
        invariant Find(list, kind) == Find(list[n..], kind)
      {
        if list[n].kind == kind {
          return n;
        }
      }
      return |list|;
    }

    method SetCondition(c: Condition, now: nat)
      modifies this
      ensures list == SetIn(old(list), c, now)
    {
      var i := FindCondition(c.kind);
      SetAtFound(list, c, now, i);
      if i == |list| {
        list := list + [c.(time := now)];
      } else if Content(list[i]) != Content(c) {
        list := list[i := c.(time := now)];
      }
    }

    method DeleteCondition(kinds: seq<string>)
      modifies this
      ensures list == DeleteIn(old(list), kinds)
    {
      var kept: seq<Condition> := [];
      for i := 0 to |list|
        modifies {}
        invariant DeleteIn(list, kinds) == kept + DeleteIn(list[i..], kinds)
      {
        if list[i].kind !in kinds {
          kept := kept + [list[i]];
        }
      }
      list := kept;
    }

    method HasCondition(kinds: seq<string>) returns (r: bool)
      ensures r <==> kinds != [] && forall i :: 0 <= i < |kinds| ==> IsTrue(Find(list, kinds[i]))
    {
      for n := 0 to |kinds|
        invariant forall i :: 0 <= i < n ==> IsTrue(Find(list, kinds[i]))
      {
        var at := FindCondition(kinds[n]);
        if at == |list| || list[at].status != ConditionTrue {
          return false;
        }
      }
      return |kinds| > 0;
    }

    method HasAnyCondition(kinds: seq<string>) returns (r: bool)
      ensures r <==> exists i :: 0 <= i < |kinds| && IsTrue(Find(list, kinds[i]))
    {
      for n := 0 to |kinds|
        invariant forall i :: 0 <= i < n ==> !IsTrue(Find(list, kinds[i]))
      {
        var at := FindCondition(kinds[n]);
        if at < |list| && list[at].status == ConditionTrue {
          return true;
        }
      }
      return false;
    }

    method HasConditionCategory(categories: seq<string>) returns (r: bool)
      ensures r <==> exists c :: c in list && c.category in categories && c.status == ConditionTrue
    {
      for n := 0 to |list|
        invariant forall i :: 0 <= i < n ==> !(list[i].category in categories && list[i].status == ConditionTrue)
      {
        if list[n].category in categories && list[n].status == ConditionTrue {
          return true;
        }
      }
      return false;
    }

    method SetReady(ready: bool, message: string, now: nat)
      modifies this
      ensures list == Applied(old(list), if ready then SetOp(Condition(READY, ConditionTrue, "", REQUIRED, message, 0), now) else DeleteOp([READY]))
    {
      if ready {
        SetCondition(Condition(READY, ConditionTrue, "", REQUIRED, message, 0), now);
      } else {
        DeleteCondition([READY]);
      }
    }

    /** Afterwards the collection is not ready and has a critical condition, whatever it held before. */
    method SetReconcileFailed(message: string, now: nat)
      modifies this
      ensures list == SetIn(DeleteIn(old(list), [READY]), Condition(RECONCILE_FAILED, ConditionTrue, "", CRITICAL, message, 0), now)
      ensures Find(list, READY).None?
      ensures exists c :: c in list && c.kind == RECONCILE_FAILED && c.category == CRITICAL && c.status == ConditionTrue
    {
      var failed := Condition(RECONCILE_FAILED, ConditionTrue, "", CRITICAL, message, 0);
      DeleteCondition([READY]);
      ghost var deleted := list;
      SetCondition(failed, now);
      FindAfterDelete(old(list), [READY], READY);
      FindAfterSet(deleted, failed, now, READY);
      FindAfterSet(deleted, failed, now, RECONCILE_FAILED);
      FindAt(list, RECONCILE_FAILED);
    }

    method CopyConditionTimestampsFrom(other: Collection)
      modifies this
      ensures list == Retimed(old(list), old(other.list))
    {
      ghost var before, source := list, other.list;
      for i := 0 to |list|
        invariant |list| == |before| && (other != this ==> other.list == source)
        invariant list == Halfway(before, source, i)
      {
        HalfwayStep(before, source, i);
        if other == this {
          RetimedFromItself(before, i, list[i].kind);
        }
        assert Find(other.list, list[i].kind) == Find(source, before[i].kind);
        var at := other.FindCondition(list[i].kind);
        if at < |other.list| {
          list := list[i := list[i].(time := other.list[at].time)];
        }
        assert list == Halfway(before, source, i + 1);
      }
    }
  }

  /** The list after the first i timestamps have been taken over. */
  function Halfway(cs: seq<Condition>, other: seq<Condition>, i: nat): seq<Condition>
    requires i <= |cs|
  {
    Retimed(cs, other)[..i] + cs[i..]
  }

  lemma HalfwayStep(cs: seq<Condition>, other: seq<Condition>, i: nat)
    requires i < |cs|
    ensures |Halfway(cs, other, i)| == |cs| && Halfway(cs, other, i)[i] == cs[i]
    ensures Halfway(cs, other, i + 1) == Halfway(cs, other, i)[i := Retimed(cs, other)[i]]
    ensures Halfway(cs, other, i)[i := cs[i]] == Halfway(cs, other, i)
  {
  }

  lemma {:induction false} FindByIndex(cs: seq<Condition>, kind: string, i: nat)
    requires i <= |cs| && (i < |cs| ==> cs[i].kind == kind) && forall k :: 0 <= k < i ==> cs[k].kind != kind
    ensures Find(cs, kind) == if i < |cs| then Some(cs[i]) else None
  {
    if i > 0 {
      FindByIndex(cs[1..], kind, i - 1);
    }
  }

  lemma {:induction false} FirstIndex(cs: seq<Condition>, kind: string) returns (i: nat)
    ensures i <= |cs| && (i < |cs| ==> cs[i].kind == kind) && forall k :: 0 <= k < i ==> cs[k].kind != kind
  {
    i := 0;
    if cs != [] && cs[0].kind != kind {
      i := FirstIndex(cs[1..], kind);
      i := i + 1;
    }
  }

  /** A list half way through taking over its own timestamps gives the same ones. */
  lemma RetimedFromItself(cs: seq<Condition>, i: nat, kind: string)
    requires i <= |cs|
    ensures Find(Halfway(cs, cs, i), kind) == Find(cs, kind)
  {
    var half := Halfway(cs, cs, i);
    var f := FirstIndex(cs, kind);
    FindByIndex(cs, kind, f);
    FindByIndex(half, kind, f);
  }

  /** Setting through the index that was found. */
  lemma {:induction false} SetAtFound(cs: seq<Condition>, c: Condition, now: nat, i: nat)
    requires i <= |cs| && forall k :: 0 <= k < i ==> cs[k].kind != c.kind
    requires i < |cs| ==> cs[i].kind == c.kind
    ensures SetIn(cs, c, now) ==
      if i == |cs| then cs + [c.(time := now)]
      else if Content(cs[i]) == Content(c) then cs
      else cs[i := c.(time := now)]
  {
    if i > 0 {
      SetAtFound(cs[1..], c, now, i - 1);
      assert cs == [cs[0]] + cs[1..];
    }
  }
}
