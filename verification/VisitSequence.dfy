/** Which of the possible orders the depth-first search returns: starts are taken in text order, and
    dependencies sorted for recovery and as declared for migration. */
module VisitSequence {
  import opened Common
  import opened Sorting
  import opened TextOrder
  import opened DependencyOrder

  /** A walk of any length leads from `a` to `b`. */
  ghost predicate Leads(g: Graph, p: seq<string>, a: string, b: string) {
    p != [] && Walk(g, p) && p[0] == a && Last(p) == b
  }

  ghost predicate CanReach(g: Graph, a: string, b: string) { exists p :: Leads(g, p, a, b) }

  lemma ReachesItself(g: Graph, a: string)
    requires a in g
    ensures CanReach(g, a, a)
  {
    assert Leads(g, [a], a, a);
  }

  lemma ReachesOn(g: Graph, a: string, b: string, c: string)
    requires a in g && b in g[a] && CanReach(g, b, c)
    ensures CanReach(g, a, c)
  {
    var p :| Leads(g, p, b, c);
    var q := [a] + p;
    assert forall i :: 0 < i < |q| ==> q[i] == p[i - 1];
    assert Leads(g, q, a, c);
  }

  /** What is new in an order was reached from one of the ids visited. */
  ghost predicate NewFrom(g: Graph, ids: seq<string>, before: seq<string>, after: seq<string>) {
    && before <= after
    && forall y :: y in after ==> y in before || exists k :: 0 <= k < |ids| && CanReach(g, ids[k], y)
  }

  lemma {:induction false} VisitReaches(g: Graph, id: string, visiting: set<string>, before: seq<string>)
    requires Closed(g) && id in g && Visit(g, id, visiting, before).Some?
    ensures NewFrom(g, [id], before, Visit(g, id, visiting, before).value)
    decreases g.Keys - visiting, 0
  {
    hide CanReach;
    ReachesItself(g, id);
    assert [id][0] == id;
    if id !in before {
      assert id in g.Keys - visiting;
      VisitAllReaches(g, g[id], visiting + {id}, before);
      var o := VisitAll(g, g[id], visiting + {id}, before).value;
      forall y | y in o && y !in before ensures CanReach(g, id, y) {
        var k :| 0 <= k < |g[id]| && CanReach(g, g[id][k], y);
        ReachesOn(g, id, g[id][k], y);
      }
    }
  }

  lemma {:induction false} VisitAllReaches(g: Graph, ids: seq<string>, visiting: set<string>, before: seq<string>)
    requires Closed(g) && (forall id :: id in ids ==> id in g) && VisitAll(g, ids, visiting, before).Some?
    ensures NewFrom(g, ids, before, VisitAll(g, ids, visiting, before).value)
    decreases g.Keys - visiting, 1 + |ids|
  {
    hide CanReach, Visit;
    if ids != [] {
      VisitReaches(g, ids[0], visiting, before);
      var o := Visit(g, ids[0], visiting, before).value;
      VisitAllReaches(g, ids[1..], visiting, o);
      forall y | y in VisitAll(g, ids, visiting, before).value && y !in before
        ensures exists k :: 0 <= k < |ids| && CanReach(g, ids[k], y)
      {
        if y in o {
          var k :| 0 <= k < 1 && CanReach(g, [ids[0]][k], y);
          assert CanReach(g, ids[0], y);
        } else {
          var k :| 0 <= k < |ids| - 1 && CanReach(g, ids[1..][k], y);
          assert CanReach(g, ids[k + 1], y);
        }
      }
    }
  }

  /** Visiting a list is visiting its parts one after the other. */
  lemma {:induction false} VisitSplits(g: Graph, a: seq<string>, b: seq<string>, visiting: set<string>,
                                       order: seq<string>)
    requires Closed(g) && forall id :: id in a + b ==> id in g
    ensures forall id :: id in a ==> id in g
    ensures forall id :: id in b ==> id in g
    ensures VisitAll(g, a + b, visiting, order)
         == match VisitAll(g, a, visiting, order) case None => None case Some(o) => VisitAll(g, b, visiting, o)
    decreases |a|
  {
    hide Visit;
    assert forall id :: id in a || id in b ==> id in a + b;
    if a == [] {
      assert a + b == b;
    } else {
      assert (a + b)[0] == a[0] && (a + b)[1..] == a[1..] + b;
      if Visit(g, a[0], visiting, order).Some? {
        VisitSplits(g, a[1..], b, visiting, Visit(g, a[0], visiting, order).value);
      }
    }
  }

  /** Before `ids[k]` only what the ids up to it reach is placed. */
  lemma PlacedBefore(g: Graph, ids: seq<string>, path: seq<string>, k: nat, i: nat, j: nat)
    requires Closed(g) && (forall id :: id in ids ==> id in g && OnPath(g, path, id)) && Walk(g, path)
    requires VisitAll(g, ids, Elements(path), []).Some? && k < |ids|
    requires var o := VisitAll(g, ids, Elements(path), []).value; i < j < |o| && o[j] == ids[k]
    ensures var o := VisitAll(g, ids, Elements(path), []).value;
            exists m :: 0 <= m <= k && CanReach(g, ids[m], o[i])
  {
    var o, upTo, rest := VisitAll(g, ids, Elements(path), []).value, ids[..k + 1], ids[k + 1..];
    assert ids == upTo + rest;
    VisitSplits(g, upTo, rest, Elements(path), []);
    var first := VisitAll(g, upTo, Elements(path), []).value;
    VisitAllReaches(g, rest, Elements(path), first);
    VisitAllReaches(g, upTo, Elements(path), []);
    VisitAllWorks(g, upTo, path, []);
    VisitAllWorks(g, ids, path, []);
    hide VisitAll, CanReach, OnPath, Walk, Visit;
    assert upTo[k] == ids[k] && ids[k] in first;
    var n :| 0 <= n < |first| && first[n] == ids[k];
    assert o[n] == o[j] && n == j;
    assert first[i] == o[i] && first[i] in first;
    var m :| 0 <= m < |upTo| && CanReach(g, upTo[m], o[i]);
    assert upTo[m] == ids[m];
  }

  // ---------------------------------------------------------------- recovery and migration

  /** `b` is `a`, or `a` needs it directly or through others. */
  ghost predicate Needs(items: seq<Item>, a: string, b: string) {
    exists p :: DependencyWalk(items, p) && p != [] && p[0] == a && Last(p) == b
  }

  lemma ReachIsNeed(sorted: bool, items: seq<Item>, a: string, b: string)
    requires Distinct(items) && CanReach(GraphOf(sorted, items), a, b)
    ensures Needs(items, a, b)
  {
    hide Walk, DependencyWalk, GraphOf;
    var p :| Leads(GraphOf(sorted, items), p, a, b);
    WalksAgree(sorted, items, p);
  }

  /** The search behind an order that was returned. */
  lemma SearchOf(sorted: bool, items: seq<Item>)
    requires OrderOf(sorted, items).Ok?
    ensures Distinct(items) && KnownDependencies(items)
    ensures var g, ids := GraphOf(sorted, items), SortText(Ids(items));
            && Closed(g) && (forall id :: id in ids <==> id in g) && Ordered(TextLe, ids)
            && VisitAll(g, ids, {}, []) == Some(OrderOf(sorted, items).value)
            && Topological(g, OrderOf(sorted, items).value)
            && Elements([]) == {}
  {
    GraphIsClosed(sorted, items);
    SearchExactly(GraphOf(sorted, items), SortText(Ids(items)));
    TextOrderIsTotal();
    SortOrdered(TextLe, Ids(items));
  }

  /** Starts are taken in text order: what precedes an item is needed by it, or by an item before it in text
      order, or is one. */
  lemma StartsInTextOrder(sorted: bool, items: seq<Item>, i: nat, j: nat)
    requires OrderOf(sorted, items).Ok? && i < j < |OrderOf(sorted, items).value|
    ensures var order := OrderOf(sorted, items).value;
            exists z :: z in Ids(items) && TextLe(z, order[j]) && Needs(items, z, order[i])
  {
    hide OrderOf, GraphOf, VisitAll, CanReach, Needs, Topological, Sort, TextLe, Closed, Distinct, KnownDependencies,
        Ordered, OnPath;
    SearchOf(sorted, items);
    var g, ids, order := GraphOf(sorted, items), SortText(Ids(items)), OrderOf(sorted, items).value;
    var k := PlaceInText(sorted, items, order[j]);
    StartsHold(g, ids);
    PlacedBefore(g, ids, [], k, i, j);
    var m :| 0 <= m <= k && CanReach(g, ids[m], order[i]);
    NoLater(ids, m, k);
    ReachIsNeed(sorted, items, ids[m], order[i]);
    SortKeepsElements(TextLe, Ids(items));
    assert ids[m] in ids;
  }

  lemma PlaceInText(sorted: bool, items: seq<Item>, id: string) returns (k: nat)
    requires OrderOf(sorted, items).Ok? && id in OrderOf(sorted, items).value
    ensures var ids := SortText(Ids(items)); k < |ids| && ids[k] == id
  {
    hide OrderOf, Sort, TextLe, Ids;
    OrderExactly(sorted, items);
    SortKeepsElements(TextLe, Ids(items));
    var ids := SortText(Ids(items));
    k :| 0 <= k < |ids| && ids[k] == id;
  }

  lemma StartsHold(g: Graph, ids: seq<string>)
    requires forall id :: id in ids <==> id in g
    ensures Walk(g, []) && forall id :: id in ids ==> id in g && OnPath(g, [], id)
  {}

  lemma NoLater(ids: seq<string>, m: nat, k: nat)
    requires Ordered(TextLe, ids) && m <= k < |ids|
    ensures TextLe(ids[m], ids[k])
  {
    hide TextLe;
    TextLeTotal(ids[k], ids[k]);
  }

  /** What one item's dependencies are visited in. */
  ghost function Turns(sorted: bool, item: Item): seq<string> {
    if sorted then SortText(item.dependsOn) else item.dependsOn
  }

  lemma LeastIsFirst(items: seq<Item>, n: nat)
    requires n < |items| && forall m :: 0 <= m < |items| ==> TextLe(items[n].id, items[m].id)
    ensures var ids := SortText(Ids(items)); ids != [] && ids[0] == items[n].id
  {
    hide Sort, TextLe;
    var ids := SortText(Ids(items));
    SortKeepsElements(TextLe, Ids(items));
    TextOrderIsTotal();
    SortOrdered(TextLe, Ids(items));
    assert Ids(items)[n] in ids;
    assert ids[0] in Ids(items);
    var m :| 0 <= m < |items| && Ids(items)[m] == ids[0];
    var k :| 0 <= k < |ids| && ids[k] == items[n].id;
    if k > 0 { TextLeTotal(ids[0], ids[k]); }
  }

  /** The visit of the first start: its dependencies in turn, then itself. */
  lemma FirstVisit(sorted: bool, items: seq<Item>, n: nat)
    requires OrderOf(sorted, items).Ok? && n < |items|
    requires forall m :: 0 <= m < |items| ==> TextLe(items[n].id, items[m].id)
    ensures Distinct(items)
    ensures var g, first := GraphOf(sorted, items), items[n].id; var deps := Turns(sorted, items[n]);
            && Closed(g) && first in g && g[first] == deps && Walk(g, [first]) && Elements([first]) == {first}
            && (forall d :: d in deps ==> d in g && OnPath(g, [first], d))
            && VisitAll(g, deps, {first}, []).Some?
            && VisitAll(g, deps, {first}, []).value <= OrderOf(sorted, items).value
  {
    hide OrderOf, GraphOf, CanReach, Sort, TextLe, Distinct, KnownDependencies;
    SearchOf(sorted, items);
    GraphOfItems(sorted, items);
    LeastIsFirst(items, n);
    var g, ids, first := GraphOf(sorted, items), SortText(Ids(items)), items[n].id;
    assert ids == [first] + ids[1..];
    VisitSplits(g, [first], ids[1..], {}, []);
    assert Ids(items)[n] == first;
    assert [first][0] == first && [first][1..] == [];
    var o := Visit(g, first, {}, []).value;
    assert VisitAll(g, [first], {}, []) == Some(o);
    VisitAllReaches(g, ids[1..], {}, o);
    assert {} + {first} == {first};
    assert o == VisitAll(g, g[first], {first}, []).value + [first];
  }

  /** Dependencies are visited in turn, sorted for recovery and as declared for migration: what precedes a
      dependency of the first start is needed by it or by one whose turn came before. */
  lemma DependenciesInTurn(sorted: bool, items: seq<Item>, n: nat, a: nat, i: nat, j: nat)
    requires OrderOf(sorted, items).Ok? && n < |items| && a < |Turns(sorted, items[n])|
    requires forall m :: 0 <= m < |items| ==> TextLe(items[n].id, items[m].id)
    requires var order := OrderOf(sorted, items).value; i < j < |order| && order[j] == Turns(sorted, items[n])[a]
    ensures exists b :: 0 <= b <= a && Needs(items, Turns(sorted, items[n])[b], OrderOf(sorted, items).value[i])
  {
    hide OrderOf, GraphOf, VisitAll, CanReach, Needs, Sort, TextLe, Closed, Distinct, KnownDependencies, Turns, OnPath,
        Walk;
    FirstVisit(sorted, items, n);
    var g, first, deps := GraphOf(sorted, items), items[n].id, Turns(sorted, items[n]);
    var order, o := OrderOf(sorted, items).value, VisitAll(g, deps, {first}, []).value;
    OrderExactly(sorted, items);
    PlacedAll(g, deps, first);
    assert deps[a] in o;
    var k :| 0 <= k < |o| && o[k] == deps[a];
    assert order[k] == order[j] && k == j;
    PlacedBefore(g, deps, [first], a, i, j);
    var b :| 0 <= b <= a && CanReach(g, deps[b], o[i]);
    ReachIsNeed(sorted, items, deps[b], o[i]);
  }

  lemma PlacedAll(g: Graph, deps: seq<string>, first: string)
    requires Closed(g) && (forall d :: d in deps ==> d in g && OnPath(g, [first], d))
    requires Walk(g, [first]) && Elements([first]) == {first} && VisitAll(g, deps, {first}, []).Some?
    ensures forall d :: d in deps ==> d in VisitAll(g, deps, {first}, []).value
  {
    VisitAllWorks(g, deps, [first], []);
  }
}
