/** The recursive depth-first orders of recovery components and migration assets: when they succeed,
    what they return, and what they do not depend on. */
module DependencyOrder {
  import opened Common
  import opened Sorting
  import opened TextOrder

  /** Each id with its dependencies, in the order they are visited. */
  type Graph = map<string, seq<string>>

  predicate Closed(g: Graph) { forall id, d :: id in g && d in g[id] ==> d in g }

  // ---------------------------------------------------------------- the search

  /** `visit`: None is the cycle error. `order` lists the visited ids. */
  function Visit(g: Graph, id: string, visiting: set<string>, order: seq<string>): Option<seq<string>>
    requires Closed(g) && id in g
    decreases g.Keys - visiting, 0
  {
    if id in visiting then None
    else if id in order then Some(order)
    else
      assert g.Keys - (visiting + {id}) < g.Keys - visiting by { assert id in g.Keys - visiting; }
      match VisitAll(g, g[id], visiting + {id}, order)
      case None => None
      case Some(o) => Some(o + [id])
  }

  function VisitAll(g: Graph, ids: seq<string>, visiting: set<string>, order: seq<string>): Option<seq<string>>
    requires Closed(g) && forall id :: id in ids ==> id in g
    decreases g.Keys - visiting, 1 + |ids|
  {
    if ids == [] then Some(order)
    else
      match Visit(g, ids[0], visiting, order)
      case None => None
      case Some(o) => VisitAll(g, ids[1..], visiting, o)
  }

  // ---------------------------------------------------------------- what an order means

  ghost predicate Before(order: seq<string>, i: int, d: string) { exists j :: 0 <= j < i <= |order| && order[j] == d }

  /** Known ids, none twice, each after all of its dependencies. */
  ghost predicate Topological(g: Graph, order: seq<string>) {
    && (forall i :: 0 <= i < |order| ==> order[i] in g && forall d :: d in g[order[i]] ==> Before(order, i, d))
    && (forall i, j :: 0 <= i < j < |order| ==> order[i] != order[j])
  }

  ghost predicate Walk(g: Graph, p: seq<string>) {
    && (forall i :: 0 <= i < |p| ==> p[i] in g)
    && (forall i :: 0 <= i < |p| - 1 ==> p[i + 1] in g[p[i]])
  }

  /** A walk of at least one edge that ends where it began. */
  ghost predicate HasCycle(g: Graph) {
    exists p :: Walk(g, p) && |p| >= 2 && p[0] == p[|p| - 1]
  }

  /** `id` may be visited next: `path` is the chain of ids being visited, and `id` depends-on-follows it. */
  ghost predicate OnPath(g: Graph, path: seq<string>, id: string) {
    Walk(g, path) && (path == [] || id in g[path[|path| - 1]])
  }

  ghost function Elements(s: seq<string>): set<string> { set x | x in s }

  /** What a successful visit leaves: the old order continued, still topological, none of the ids
      being visited in it. */
  ghost predicate Reached(g: Graph, path: seq<string>, before: seq<string>, after: seq<string>) {
    Topological(g, after) && before <= after && Elements(path) !! Elements(after)
  }

  lemma ClosingTheCycle(g: Graph, path: seq<string>, id: string)
    requires Closed(g) && id in g && OnPath(g, path, id) && id in path
    ensures HasCycle(g)
  {
    var k :| 0 <= k < |path| && path[k] == id;
    var p := path[k..] + [id];
    assert Walk(g, p);
  }

  lemma AppendIsTopological(g: Graph, order: seq<string>, id: string)
    requires Topological(g, order) && id in g && id !in order && forall d :: d in g[id] ==> d in order
    ensures Topological(g, order + [id])
  {
    var after := order + [id];
    forall i | 0 <= i < |after| ensures after[i] in g && forall d :: d in g[after[i]] ==> Before(after, i, d) {
      forall d | d in g[after[i]] ensures Before(after, i, d) {
        if i < |order| {
          assert Before(order, i, d);
          var j :| 0 <= j < i && order[j] == d;
          assert after[j] == d;
        } else {
          var j :| 0 <= j < |order| && order[j] == d;
          assert after[j] == d;
        }
      }
    }
  }

  /** Visiting from a consistent point finds a cycle or continues the order up to `id`. */
  lemma {:induction false} VisitWorks(g: Graph, id: string, path: seq<string>, order: seq<string>)
    requires Closed(g) && id in g && OnPath(g, path, id) && Reached(g, path, order, order)
    ensures match Visit(g, id, Elements(path), order)
            case None => HasCycle(g)
            case Some(o) => Reached(g, path, order, o) && id in o
    decreases g.Keys - Elements(path), 0
  {
    if id in path {
      ClosingTheCycle(g, path, id);
    } else if id !in order {
      var longer := path + [id];
      assert Elements(longer) == Elements(path) + {id};
      assert id in g.Keys - Elements(path);
      assert Walk(g, longer);
      VisitAllWorks(g, g[id], longer, order);
      match VisitAll(g, g[id], Elements(path) + {id}, order)
      case None =>
      case Some(o) =>
        assert id in Elements(longer);
        AppendIsTopological(g, o, id);
    }
  }

  lemma {:induction false} VisitAllWorks(g: Graph, ids: seq<string>, path: seq<string>, order: seq<string>)
    requires Closed(g) && (forall id :: id in ids ==> id in g && OnPath(g, path, id)) && Reached(g, path, order, order)
    ensures match VisitAll(g, ids, Elements(path), order)
            case None => HasCycle(g)
            case Some(o) => Reached(g, path, order, o) && forall id :: id in ids ==> id in o
    decreases g.Keys - Elements(path), 1 + |ids|
  {
    if ids != [] {
      VisitWorks(g, ids[0], path, order);
      match Visit(g, ids[0], Elements(path), order)
      case None =>
      case Some(o) =>
        hide Topological, OnPath, Visit;
        VisitAllWorks(g, ids[1..], path, o);
        assert ids == [ids[0]] + ids[1..];
    }
  }

  function Last(p: seq<string>): string
    requires p != []
  {
    p[|p| - 1]
  }

  ghost predicate IsAt(order: seq<string>, i: int, id: string) { 0 <= i < |order| && order[i] == id }

  /** Along a walk, positions in a topological order only go down. */
  lemma {:induction false} WalksGoDown(g: Graph, order: seq<string>, p: seq<string>, i: int)
    requires Topological(g, order) && Walk(g, p) && p != [] && IsAt(order, i, p[0])
    ensures |p| >= 2 ==> exists j :: IsAt(order, j, Last(p)) && j < i
    decreases |p|
  {
    if |p| >= 2 {
      assert p[1] in g[p[0]] && Before(order, i, p[1]);
      var k :| 0 <= k < i && order[k] == p[1];
      assert IsAt(order, k, p[1]);
      assert Walk(g, p[1..]);
      WalksGoDown(g, order, p[1..], k);
      assert Last(p[1..]) == Last(p);
      assert |p| == 2 ==> IsAt(order, k, Last(p));
    }
  }

  lemma TopologicalMeansAcyclic(g: Graph, order: seq<string>)
    requires Topological(g, order) && forall id :: id in g ==> id in order
    ensures !HasCycle(g)
  {
    if HasCycle(g) {
      var p :| Walk(g, p) && |p| >= 2 && p[0] == p[|p| - 1];
      var i :| 0 <= i < |order| && order[i] == p[0];
      WalksGoDown(g, order, p, i);
    }
  }

  /** Main result on the search: started from any listing of all ids it succeeds exactly when the
      graph has no cycle, and then returns each id once, after all its dependencies. */
  lemma SearchExactly(g: Graph, ids: seq<string>)
    requires Closed(g) && forall id :: id in ids <==> id in g
    ensures VisitAll(g, ids, {}, []).Some? <==> !HasCycle(g)
    ensures VisitAll(g, ids, {}, []).Some? ==>
              var o := VisitAll(g, ids, {}, []).value;
              Topological(g, o) && forall id :: id in o <==> id in g
  {
    VisitAllWorks(g, ids, [], []);
    assert Elements([]) == {};
    if VisitAll(g, ids, {}, []).Some? {
      TopologicalMeansAcyclic(g, VisitAll(g, ids, {}, []).value);
    }
  }

  // ---------------------------------------------------------------- components and assets

  /** A recovery component or migration asset, as far as its order is concerned. */
  datatype Item = Item(id: string, dependsOn: seq<string>)

  datatype OrderError = DuplicateIds | UnknownDependencies | DependencyCycle

  function Ids(items: seq<Item>): (r: seq<string>)
    ensures |r| == |items| && forall i :: 0 <= i < |items| ==> r[i] == items[i].id
  {
    seq(|items|, i requires 0 <= i < |items| => items[i].id)
  }

  predicate Distinct(items: seq<Item>) {
    forall i, j :: 0 <= i < j < |items| ==> items[i].id != items[j].id
  }

  predicate KnownDependencies(items: seq<Item>) {
    forall i, d :: 0 <= i < |items| && d in items[i].dependsOn ==> d in Ids(items)
  }

  /** Recovery visits dependencies in sorted order, migration as declared. */
  function VisitOrder(sorted: bool, item: Item): seq<string> {
    if sorted then SortText(item.dependsOn) else item.dependsOn
  }

  /** `{item.id: item}`; ids are distinct where it is used. */
  function GraphOf(sorted: bool, items: seq<Item>): Graph {
    if items == [] then map[]
    else GraphOf(sorted, items[..|items| - 1])[items[|items| - 1].id := VisitOrder(sorted, items[|items| - 1])]
  }

  lemma {:induction false} GraphOfItems(sorted: bool, items: seq<Item>)
    requires Distinct(items)
    ensures forall id :: id in GraphOf(sorted, items) <==> id in Ids(items)
    ensures forall i :: 0 <= i < |items| ==> GraphOf(sorted, items)[items[i].id] == VisitOrder(sorted, items[i])
  {
    if items != [] {
      var front := items[..|items| - 1];
      GraphOfItems(sorted, front);
      assert Ids(items) == Ids(front) + [items[|items| - 1].id];
      forall i | 0 <= i < |items| - 1 ensures GraphOf(sorted, items)[items[i].id] == VisitOrder(sorted, items[i]) {
        assert front[i] == items[i] && items[i].id != items[|items| - 1].id;
      }
    }
  }

  lemma GraphIsClosed(sorted: bool, items: seq<Item>)
    requires Distinct(items) && KnownDependencies(items)
    ensures Closed(GraphOf(sorted, items))
    ensures forall id :: id in SortText(Ids(items)) <==> id in GraphOf(sorted, items)
  {
    GraphOfItems(sorted, items);
    SortKeepsElements(TextLe, Ids(items));
    var g := GraphOf(sorted, items);
    forall id, d | id in g && d in g[id] ensures d in g {
      var i :| 0 <= i < |items| && items[i].id == id;
      SortKeepsElements(TextLe, items[i].dependsOn);
    }
  }

  /** `recovery_order` (sorted) and `dependency_order` (as declared). */
  function OrderOf(sorted: bool, items: seq<Item>): Result<seq<string>, OrderError> {
    if !Distinct(items) then Err(DuplicateIds)
    else if !KnownDependencies(items) then Err(UnknownDependencies)
    else
      GraphIsClosed(sorted, items);
      match VisitAll(GraphOf(sorted, items), SortText(Ids(items)), {}, [])
      case None => Err(DependencyCycle)
      case Some(order) => Ok(order)
  }

  /** The dependency relation itself, as declared. */
  ghost predicate Depends(items: seq<Item>, id: string, on: string) {
    exists i :: 0 <= i < |items| && items[i].id == id && on in items[i].dependsOn
  }

  ghost predicate DependencyWalk(items: seq<Item>, p: seq<string>) {
    && (forall i :: 0 <= i < |p| ==> p[i] in Ids(items))
    && (forall i :: 0 <= i < |p| - 1 ==> Depends(items, p[i], p[i + 1]))
  }

  ghost predicate Circular(items: seq<Item>) {
    exists p :: DependencyWalk(items, p) && |p| >= 2 && p[0] == p[|p| - 1]
  }

  lemma GraphDepends(sorted: bool, items: seq<Item>, id: string, on: string)
    requires Distinct(items)
    ensures id in GraphOf(sorted, items) && on in GraphOf(sorted, items)[id] <==> Depends(items, id, on)
  {
    GraphOfItems(sorted, items);
    hide GraphOf, Sort, TextLe;
    if id in Ids(items) {
      var i :| 0 <= i < |items| && Ids(items)[i] == id;
      SortKeepsElements(TextLe, items[i].dependsOn);
      hide Ids;
      assert Depends(items, id, on) <==> on in items[i].dependsOn;
    }
  }

  lemma WalksAgree(sorted: bool, items: seq<Item>, p: seq<string>)
    requires Distinct(items)
    ensures Walk(GraphOf(sorted, items), p) <==> DependencyWalk(items, p)
  {
    var g := GraphOf(sorted, items);
    GraphOfItems(sorted, items);
    forall i | 0 <= i < |p| - 1 && p[i] in g ensures p[i + 1] in g[p[i]] <==> Depends(items, p[i], p[i + 1]) {
      GraphDepends(sorted, items, p[i], p[i + 1]);
    }
  }

  lemma CyclesAgree(sorted: bool, items: seq<Item>)
    requires Distinct(items)
    ensures HasCycle(GraphOf(sorted, items)) <==> Circular(items)
  {
    hide Walk, DependencyWalk;
    forall p ensures Walk(GraphOf(sorted, items), p) <==> DependencyWalk(items, p) { WalksAgree(sorted, items, p); }
  }

  /** Each error is raised exactly for its own reason, and an order is returned exactly when ids are
      distinct, dependencies known and no item depends on itself through others: then it is a
      permutation of the ids with every dependency before its dependent. */
  lemma OrderExactly(sorted: bool, items: seq<Item>)
    ensures OrderOf(sorted, items) == Err(DuplicateIds) <==> !Distinct(items)
    ensures OrderOf(sorted, items) == Err(UnknownDependencies) <==> Distinct(items) && !KnownDependencies(items)
    ensures OrderOf(sorted, items) == Err(DependencyCycle) <==>
              Distinct(items) && KnownDependencies(items) && Circular(items)
    ensures OrderOf(sorted, items).Ok? ==>
              var order := OrderOf(sorted, items).value;
              && (forall i, j :: 0 <= i < j < |order| ==> order[i] != order[j])
              && (forall id :: id in order <==> id in Ids(items))
              && (forall i, d :: 0 <= i < |order| && Depends(items, order[i], d) ==> Before(order, i, d))
  {
    if Distinct(items) && KnownDependencies(items) {
      var g := GraphOf(sorted, items);
      GraphIsClosed(sorted, items);
      SearchExactly(g, SortText(Ids(items)));
      CyclesAgree(sorted, items);
      GraphOfItems(sorted, items);
      if OrderOf(sorted, items).Ok? {
        var order := OrderOf(sorted, items).value;
        hide Visit, VisitAll, OrderOf, GraphOf, HasCycle, Circular;
        forall i, d | 0 <= i < |order| && Depends(items, order[i], d) ensures Before(order, i, d) {
          GraphDepends(sorted, items, order[i], d);
        }
      }
    }
  }

  /** The same items listed in another order. */
  ghost predicate SameItems(a: seq<Item>, b: seq<Item>) { multiset(a) == multiset(b) }

  /** A listing with one item less on each side. */
  lemma RemoveShared(a: seq<Item>, b: seq<Item>) returns (k: nat)
    requires SameItems(a, b) && a != []
    ensures k < |b| && b[k] == a[|a| - 1]
    ensures SameItems(a[..|a| - 1], b[..k] + b[k + 1..])
  {
    var x := a[|a| - 1];
    assert x in multiset(b);
    k :| 0 <= k < |b| && b[k] == x;
    var n := |a| - 1;
    assert a[..n] == a[..n] + a[n + 1..];
    ElementsWithout(a, n);
    ElementsWithout(b, k);
  }

  lemma {:induction false} SharedIds(a: seq<Item>, b: seq<Item>)
    requires SameItems(a, b)
    ensures multiset(Ids(a)) == multiset(Ids(b))
    decreases |a|
  {
    if a == [] {
      assert |multiset(b)| == 0;
    } else {
      var k := RemoveShared(a, b);
      var n := |a| - 1;
      SharedIds(a[..n], b[..k] + b[k + 1..]);
      assert a[..n] + a[n + 1..] == a[..n];
      IdsWithout(a, n);
      IdsWithout(b, k);
      SameAfterRemoval(multiset(Ids(a)), multiset(Ids(b)), a[n].id);
    }
  }

  lemma IdsWithout(items: seq<Item>, k: nat)
    requires k < |items|
    ensures multiset(Ids(items[..k] + items[k + 1..])) == multiset(Ids(items)) - multiset{items[k].id}
    ensures items[k].id in multiset(Ids(items))
  {
    var ids := Ids(items);
    assert Ids(items[..k] + items[k + 1..]) == ids[..k] + ids[k + 1..];
    assert ids[k] in ids;
    ElementsWithout(ids, k);
  }

  lemma SameAfterRemoval<T>(a: multiset<T>, b: multiset<T>, x: T)
    requires x in a && x in b && a - multiset{x} == b - multiset{x}
    ensures a == b
  {
    assert a == a - multiset{x} + multiset{x} && b == b - multiset{x} + multiset{x};
  }

  lemma {:induction false} SharedDistinct(a: seq<Item>, b: seq<Item>)
    requires SameItems(a, b)
    ensures Distinct(a) <==> Distinct(b)
    decreases |a|
  {
    if a == [] {
      assert |multiset(b)| == 0;
    } else {
      var k := RemoveShared(a, b);
      var n, front, rest := |a| - 1, a[..|a| - 1], b[..k] + b[k + 1..];
      SharedDistinct(front, rest);
      SharedIds(front, rest);
      DistinctWithout(a, n);
      DistinctWithout(b, k);
      hide Distinct, Ids;
      assert a[..n] + a[n + 1..] == front;
      assert a[n].id in Ids(front) <==> a[n].id in Ids(rest) by {
        assert a[n].id in multiset(Ids(front)) <==> a[n].id in multiset(Ids(rest));
      }
    }
  }

  lemma DistinctWithout(items: seq<Item>, k: nat)
    requires k < |items|
    ensures var rest := items[..k] + items[k + 1..];
            Distinct(items) <==> Distinct(rest) && items[k].id !in Ids(rest)
  {
    var rest := items[..k] + items[k + 1..];
    assert forall i :: 0 <= i < |rest| ==> rest[i] == items[if i < k then i else i + 1];
    if Distinct(rest) && items[k].id !in Ids(rest) {
      forall i, j | 0 <= i < j < |items| ensures items[i].id != items[j].id {
        if i != k && j != k {
          assert rest[if i < k then i else i - 1] == items[i] && rest[if j < k then j else j - 1] == items[j];
        } else {
          var o := if i == k then j else i;
          assert Ids(rest)[if o < k then o else o - 1] == items[o].id;
        }
      }
    }
  }

  lemma SharedElements(a: seq<Item>, b: seq<Item>)
    requires SameItems(a, b)
    ensures forall x :: x in a <==> x in b
    ensures forall id :: id in Ids(a) <==> id in Ids(b)
  {
    SharedIds(a, b);
    hide Ids;
    forall x ensures x in a <==> x in b { assert x in multiset(a) <==> x in multiset(b); }
    forall id ensures id in Ids(a) <==> id in Ids(b) { assert id in multiset(Ids(a)) <==> id in multiset(Ids(b)); }
  }

  lemma SharedGraph(sorted: bool, a: seq<Item>, b: seq<Item>)
    requires SameItems(a, b) && Distinct(a) && Distinct(b)
    ensures GraphOf(sorted, a) == GraphOf(sorted, b)
  {
    hide GraphOf, Distinct, VisitOrder, SameItems;
    GraphOfItems(sorted, a);
    GraphOfItems(sorted, b);
    SharedElements(a, b);
    forall id | id in GraphOf(sorted, a) ensures GraphOf(sorted, a)[id] == GraphOf(sorted, b)[id] {
      var i :| 0 <= i < |a| && Ids(a)[i] == id;
      assert a[i] in b;
      var j :| 0 <= j < |b| && b[j] == a[i];
    }
  }

  lemma SharedKnown(a: seq<Item>, b: seq<Item>)
    requires SameItems(a, b) && KnownDependencies(a)
    ensures KnownDependencies(b)
  {
    SharedElements(a, b);
    hide Ids;
    forall i, d | 0 <= i < |b| && d in b[i].dependsOn ensures d in Ids(b) {
      assert b[i] in a;
      var j :| 0 <= j < |a| && a[j] == b[i];
    }
  }

  /** The result does not depend on the order in which items are listed. */
  lemma ListOrderIsIrrelevant(sorted: bool, a: seq<Item>, b: seq<Item>)
    requires SameItems(a, b)
    ensures OrderOf(sorted, a) == OrderOf(sorted, b)
  {
    SharedIds(a, b);
    SharedDistinct(a, b);
    hide Distinct, KnownDependencies, GraphOf, Ids;
    if KnownDependencies(a) { SharedKnown(a, b); }
    if KnownDependencies(b) { SharedKnown(b, a); }
    if Distinct(a) {
      SharedGraph(sorted, a, b);
      TextOrderIsTotal();
      SortUnique(TextLe, Ids(a), Ids(b));
    }
  }

  ghost predicate SameUpToDependencyOrder(a: seq<Item>, b: seq<Item>) {
    && |a| == |b|
    && forall i :: 0 <= i < |a| ==> a[i].id == b[i].id && multiset(a[i].dependsOn) == multiset(b[i].dependsOn)
  }

  /** Nor, for recovery, on the order in which a component lists its dependencies. */
  lemma DependencyListOrderIsIrrelevant(a: seq<Item>, b: seq<Item>)
    requires SameUpToDependencyOrder(a, b)
    ensures OrderOf(true, a) == OrderOf(true, b)
  {
    assert Ids(a) == Ids(b);
    forall i, d | 0 <= i < |a| ensures d in a[i].dependsOn <==> d in b[i].dependsOn {
      assert d in multiset(a[i].dependsOn) <==> d in multiset(b[i].dependsOn);
    }
    assert Distinct(a) <==> Distinct(b);
    assert KnownDependencies(a) <==> KnownDependencies(b);
    SameSortedGraph(a, b);
  }

  lemma {:induction false} SameSortedGraph(a: seq<Item>, b: seq<Item>)
    requires SameUpToDependencyOrder(a, b)
    ensures GraphOf(true, a) == GraphOf(true, b)
  {
    if a != [] {
      var n := |a| - 1;
      SameSortedGraph(a[..n], b[..n]);
      TextOrderIsTotal();
      SortUnique(TextLe, a[n].dependsOn, b[n].dependsOn);
    }
  }
}
