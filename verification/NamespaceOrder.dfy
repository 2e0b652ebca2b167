/** The order of namespaces in a multi-namespace status, and sorting by it. */
module NamespaceOrder {
  import opened Basics

  /** strings.Compare(a, b) <= 0 */
  predicate Before(a: string, b: string) {
    if a == "" then true
    else if b == "" then false
    else a[0] < b[0] || (a[0] == b[0] && Before(a[1..], b[1..]))
  }

  /** a and b agree on the first k characters, and there a ends or has the smaller character. */
  predicate SmallerAt(a: string, b: string, k: int) {
    && 0 <= k <= |a| && k <= |b| && (forall j :: 0 <= j < k ==> a[j] == b[j])
    && (k == |a| || (k < |b| && a[k] < b[k]))
  }

  lemma SmallerLater(a: string, b: string, k: int)
    requires a != "" && b != "" && k > 0
    ensures SmallerAt(a, b, k) <==> a[0] == b[0] && SmallerAt(a[1..], b[1..], k - 1)
  {
    var a', b' := a[1..], b[1..];
    if a[0] == b[0] && SmallerAt(a', b', k - 1) {
      forall j | 0 <= j < k ensures a[j] == b[j] {
        assert j > 0 ==> a[j] == a'[j - 1] && b[j] == b'[j - 1];
      }
    }
    if SmallerAt(a, b, k) {
      forall j | 0 <= j < k - 1 ensures a'[j] == b'[j] {
        assert a'[j] == a[j + 1] && b'[j] == b[j + 1];
      }
    }
  }

  /** It is the order of a dictionary. */
  lemma {:induction false} BeforeIsDictionaryOrder(a: string, b: string)
    ensures Before(a, b) <==> exists k :: SmallerAt(a, b, k)
  {
    if a == "" {
      assert SmallerAt(a, b, 0);
    } else if b != "" {
      BeforeIsDictionaryOrder(a[1..], b[1..]);
      if a[0] < b[0] {
        assert SmallerAt(a, b, 0);
      } else {
        forall k ensures SmallerAt(a, b, k) <==> a[0] == b[0] && SmallerAt(a[1..], b[1..], k - 1) {
          if k > 0 {
            SmallerLater(a, b, k);
          }
        }
        if Before(a, b) {
          var k :| SmallerAt(a[1..], b[1..], k);
          assert SmallerAt(a, b, k + 1);
        }
      }
    }
  }

  lemma {:induction false} BeforeIsTotal(a: string, b: string)
    ensures Before(a, b) || Before(b, a)
    ensures Before(a, b) && Before(b, a) ==> a == b
  {
    if a != "" && b != "" {
      BeforeIsTotal(a[1..], b[1..]);
      assert a == [a[0]] + a[1..] && b == [b[0]] + b[1..];
    }
  }

  lemma {:induction false} BeforeIsTransitive(a: string, b: string, c: string)
    requires Before(a, b) && Before(b, c)
    ensures Before(a, c)
  {
    if a != "" && b != "" && c != "" {
      if a[0] == b[0] == c[0] {
        BeforeIsTransitive(a[1..], b[1..], c[1..]);
      }
    }
  }

  /** One namespace's entry: its name and the status of its child, of whatever kind. */
  datatype Entry<T> = Entry(name: string, status: T)

  predicate SortedByName<T>(es: seq<Entry<T>>) {
    forall i, j :: 0 <= i < j < |es| ==> Before(es[i].name, es[j].name)
  }

  function Insert<T>(es: seq<Entry<T>>, e: Entry<T>): (r: seq<Entry<T>>)
    ensures multiset(r) == multiset(es) + multiset{e}
  {
    if es == [] then [e]
    else if Before(e.name, es[0].name) then [e] + es
    else
      assert es == [es[0]] + es[1..];
      [es[0]] + Insert(es[1..], e)
  }

  lemma SortedCons<T>(e: Entry<T>, es: seq<Entry<T>>)
    requires SortedByName(es) && forall x :: x in es ==> Before(e.name, x.name)
    ensures SortedByName([e] + es)
  {
  }

  lemma {:induction false} InsertKeepsSorted<T>(es: seq<Entry<T>>, e: Entry<T>)
    requires SortedByName(es)
    ensures SortedByName(Insert(es, e))
  {
    if es != [] {
      var head, rest := es[0], es[1..];
      assert es == [head] + rest;
      BeforeIsTotal(e.name, head.name);
      if Before(e.name, head.name) {
        forall x | x in es ensures Before(e.name, x.name) {
          if x != head {
            BeforeIsTransitive(e.name, head.name, x.name);
          }
        }
        SortedCons(e, es);
      } else {
        InsertKeepsSorted(rest, e);
        forall x | x in Insert(rest, e) ensures Before(head.name, x.name) {
          assert x in multiset(Insert(rest, e));
        }
        SortedCons(head, Insert(rest, e));
      }
    }
  }

  /** Any sort gives this result when names are distinct. */
  function Sorted<T>(es: seq<Entry<T>>): (r: seq<Entry<T>>)
    ensures SortedByName(r) && multiset(r) == multiset(es)
  {
    if es == [] then []
    else
      var init, last := es[..|es| - 1], es[|es| - 1];
      assert es == init + [last];
      InsertKeepsSorted(Sorted(init), last);
      Insert(Sorted(init), last)
  }

  predicate DistinctNames<T>(es: seq<Entry<T>>) {
    forall i, j :: 0 <= i < j < |es| ==> es[i].name != es[j].name
  }

  lemma SameHead<T>(s: seq<Entry<T>>, t: seq<Entry<T>>)
    requires SortedByName(s) && SortedByName(t) && s != [] && t != [] && DistinctNames(s)
    requires s[0] in t && t[0] in s
    ensures s[0] == t[0]
  {
    var i :| 0 <= i < |t| && t[i] == s[0];
    var j :| 0 <= j < |s| && s[j] == t[0];
    BeforeIsTotal(s[0].name, t[0].name);
  }

  lemma TailMultiset<T>(s: seq<Entry<T>>, t: seq<Entry<T>>)
    requires s != [] && t != [] && s[0] == t[0] && multiset(s) == multiset(t)
    ensures multiset(s[1..]) == multiset(t[1..])
  {
    assert s == [s[0]] + s[1..] && t == [s[0]] + t[1..];
    assert multiset(s[1..]) == multiset(s) - multiset{s[0]};
  }

  /** Sorted sequences of the same entries, no name twice, are equal: the sort used does not matter. */
  lemma {:induction false} SortIsDetermined<T>(s: seq<Entry<T>>, t: seq<Entry<T>>)
    requires SortedByName(s) && SortedByName(t) && multiset(s) == multiset(t) && DistinctNames(s)
    ensures s == t
  {
    assert |s| == |multiset(s)| == |multiset(t)| == |t|;
    if s != [] {
      assert s[0] in multiset(t) && t[0] in multiset(s);
      SameHead(s, t);
      TailMultiset(s, t);
      SortIsDetermined(s[1..], t[1..]);
      assert s == [s[0]] + s[1..] && t == [s[0]] + t[1..];
    }
  }
}
