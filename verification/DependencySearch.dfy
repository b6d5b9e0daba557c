/** `recovery_order` and `dependency_order` as the program runs them: a recursive procedure over
    shared sets and a shared list. */
module DependencySearch {
  import opened Common
  import opened Sorting
  import opened TextOrder
  import opened DependencyOrder

  class Search {
    var visiting: set<string>
    var visited: set<string>
    var order: seq<string>

    constructor ()
      ensures visiting == {} && visited == {} && order == []
    {
      visiting, visited, order := {}, {}, [];
    }

    /** Returns false where the program raises the cycle error; `visited` mirrors `order` throughout. */
    method Visit(g: Graph, id: string) returns (ok: bool)
      requires Closed(g) && id in g && visited == Elements(order)
      modifies this
      ensures match DependencyOrder.Visit(g, id, old(visiting), old(order))
              case None => !ok
              case Some(o) => ok && order == o && visiting == old(visiting) && visited == Elements(order)
      decreases g.Keys - visiting
    {
      if id in visiting { return false; }
      if id in visited { return true; }
      visiting := visiting + {id};
      assert id in g.Keys - old(visiting);
      var deps := g[id];
      var i := 0;
      while i < |deps|
        invariant i <= |deps| && visiting == old(visiting) + {id} && visited == Elements(order)
        invariant VisitAll(g, deps[i..], visiting, order) == VisitAll(g, deps, old(visiting) + {id}, old(order))
      {
        assert deps[i..][0] == deps[i] && deps[i..][1..] == deps[i + 1..];
        ok := Visit(g, deps[i]);
        if !ok { return false; }
        i := i + 1;
      }
      visiting := visiting - {id};
      visited := visited + {id};
      order := order + [id];
      assert visiting == old(visiting);
      return true;
    }

    /** The loop that starts a visit from every id. */
    method VisitEach(g: Graph, ids: seq<string>) returns (ok: bool)
      requires Closed(g) && (forall id :: id in ids ==> id in g) && visited == Elements(order)
      modifies this
      ensures match VisitAll(g, ids, old(visiting), old(order))
              case None => !ok
              case Some(o) => ok && order == o && visiting == old(visiting) && visited == Elements(order)
    {
      var i := 0;
      while i < |ids|
        invariant i <= |ids| && visiting == old(visiting) && visited == Elements(order)
        invariant VisitAll(g, ids[i..], visiting, order) == VisitAll(g, ids, old(visiting), old(order))
      {
        assert ids[i..][0] == ids[i] && ids[i..][1..] == ids[i + 1..];
        ok := Visit(g, ids[i]);
        if !ok { return false; }
        i := i + 1;
      }
      return true;
    }
  }

  /** `{item.id: item}`: a later item replaces an earlier one with its id. */
  method BuildGraph(sorted: bool, items: seq<Item>) returns (graph: Graph)
    ensures graph == GraphOf(sorted, items)
  {
    graph := map[];
    for i := 0 to |items|
      invariant graph == GraphOf(sorted, items[..i])
    {
      assert items[..i + 1][..i] == items[..i];
      graph := graph[items[i].id := VisitOrder(sorted, items[i])];
    }
    assert items[..|items|] == items;
  }

  method AllKnown(items: seq<Item>, graph: Graph) returns (known: bool)
    requires forall id :: id in graph <==> id in Ids(items)
    ensures known <==> KnownDependencies(items)
  {
    hide Ids;
    for i := 0 to |items|
      invariant forall j, d :: 0 <= j < i && d in items[j].dependsOn ==> d in graph
    {
      if exists d :: d in items[i].dependsOn && d !in graph { return false; }
    }
    return true;
  }

  /** `recovery_order` with `sorted`, `dependency_order` without. */
  method Order(sorted: bool, items: seq<Item>) returns (r: Result<seq<string>, OrderError>)
    ensures r == OrderOf(sorted, items)
  {
    hide GraphOf, Distinct, KnownDependencies, Ids, Closed, VisitAll, Sort, TextLe;
    var graph := BuildGraph(sorted, items);
    GraphSize(sorted, items);
    if |graph| != |items| { return Err(DuplicateIds); }
    var known := AllKnown(items, graph);
    if !known { return Err(UnknownDependencies); }
    GraphIsClosed(sorted, items);
    var search := new Search();
    var ok := search.VisitEach(graph, SortText(Ids(items)));
    if !ok { return Err(DependencyCycle); }
    return Ok(search.order);
  }

  lemma {:induction false} GraphKeys(sorted: bool, items: seq<Item>)
    ensures forall id :: id in GraphOf(sorted, items) <==> id in Ids(items)
  {
    if items != [] {
      var n := |items| - 1;
      GraphKeys(sorted, items[..n]);
      assert Ids(items) == Ids(items[..n]) + [items[n].id];
    }
  }

  lemma SizeAfterUpdate(g: Graph, id: string, deps: seq<string>)
    ensures |g[id := deps]| == |g| + if id in g then 0 else 1
  {
    var g' := g[id := deps];
    assert g'.Keys == g.Keys + {id} && |g'| == |g'.Keys| && |g| == |g.Keys|;
    if id in g { assert g'.Keys == g.Keys; }
  }

  lemma LastItem(sorted: bool, items: seq<Item>)
    requires items != []
    ensures var n := |items| - 1;
            GraphOf(sorted, items) == GraphOf(sorted, items[..n])[items[n].id := VisitOrder(sorted, items[n])]
  {}

  /** Fewer entries than items means a repeated id. */
  lemma {:induction false} GraphSize(sorted: bool, items: seq<Item>)
    ensures |GraphOf(sorted, items)| <= |items|
    ensures |GraphOf(sorted, items)| == |items| <==> Distinct(items)
    ensures forall id :: id in GraphOf(sorted, items) <==> id in Ids(items)
  {
    GraphKeys(sorted, items);
    if items != [] {
      hide GraphOf, Distinct, Ids, VisitOrder;
      var n := |items| - 1;
      var front := items[..n];
      GraphSize(sorted, front);
      LastItem(sorted, items);
      SizeAfterUpdate(GraphOf(sorted, front), items[n].id, VisitOrder(sorted, items[n]));
      DistinctWithout(items, n);
      assert items[..n] + items[n + 1..] == front;
    }
  }
}
