/** Which consumers a failed data product reaches: a queue-based search over lineage edges that may
    form cycles. */
module Lineage {
  import opened Sorting
  import opened TextOrder

  datatype Edge = Edge(source: string, target: string)

  // ---------------------------------------------------------------- what "downstream" means

  predicate Links(edges: seq<Edge>, a: string, b: string) { Edge(a, b) in edges }

  /** A route along one or more edges. */
  ghost predicate Route(edges: seq<Edge>, p: seq<string>, from: string, to: string) {
    |p| >= 2 && p[0] == from && p[|p| - 1] == to && forall i :: 0 <= i < |p| - 1 ==> Links(edges, p[i], p[i + 1])
  }

  ghost predicate Downstream(edges: seq<Edge>, from: string, to: string) { exists p :: Route(edges, p, from, to) }

  lemma OneEdge(edges: seq<Edge>, a: string, b: string)
    requires Links(edges, a, b)
    ensures Downstream(edges, a, b)
  {
    assert Route(edges, [a, b], a, b);
  }

  lemma DownstreamThenEdge(edges: seq<Edge>, a: string, b: string, c: string)
    requires Downstream(edges, a, b) && Links(edges, b, c)
    ensures Downstream(edges, a, c)
  {
    var p :| Route(edges, p, a, b);
    assert Route(edges, p + [c], a, c);
  }

  /** A set that holds every target of an edge leaving `start` or leaving the set. */
  ghost predicate Absorbs(edges: seq<Edge>, start: string, nodes: set<string>) {
    forall e :: e in edges && (e.source == start || e.source in nodes) ==> e.target in nodes
  }

  lemma {:induction false} AbsorbsAllDownstream(edges: seq<Edge>, start: string, nodes: set<string>, p: seq<string>,
                                                to: string)
    requires Absorbs(edges, start, nodes) && Route(edges, p, start, to)
    ensures to in nodes
    decreases |p|
  {
    if |p| > 2 {
      var n := |p| - 2;
      assert Route(edges, p[..n + 1], start, p[n]);
      AbsorbsAllDownstream(edges, start, nodes, p[..n + 1], p[n]);
      assert Links(edges, p[n], to);
    } else {
      assert Links(edges, start, to);
    }
  }

  // ---------------------------------------------------------------- the search

  /** `graph.get(node, set())` for the adjacency built from the edges. */
  function TargetsOf(graph: map<string, set<string>>, node: string): set<string> {
    if node in graph then graph[node] else {}
  }

  ghost predicate GraphOfEdges(graph: map<string, set<string>>, edges: seq<Edge>) {
    forall a, b :: b in TargetsOf(graph, a) <==> Links(edges, a, b)
  }

  method BuildGraph(edges: seq<Edge>) returns (graph: map<string, set<string>>)
    ensures GraphOfEdges(graph, edges)
  {
    graph := map[];
    for i := 0 to |edges|
      invariant GraphOfEdges(graph, edges[..i])
    {
      assert edges[..i + 1] == edges[..i] + [edges[i]];
      ghost var before := graph;
      graph := graph[edges[i].source := TargetsOf(graph, edges[i].source) + {edges[i].target}];
      forall a, b ensures b in TargetsOf(graph, a) <==> Links(edges[..i + 1], a, b) {
        assert b in TargetsOf(graph, a) <==> b in TargetsOf(before, a) || Edge(a, b) == edges[i];
      }
    }
    assert edges[..|edges|] == edges;
  }

  ghost predicate Lists(s: seq<string>, nodes: set<string>) {
    (forall n :: n in s <==> n in nodes) && forall i, j :: 0 <= i < j < |s| ==> s[i] != s[j]
  }

  /** `list(a_set)`: every element once, in an order the language leaves open. */
  method Listing(nodes: set<string>) returns (s: seq<string>)
    ensures Lists(s, nodes)
  {
    var rest := nodes;
    s := [];
    while rest != {}
      invariant rest <= nodes && Lists(s, nodes - rest)
      decreases rest
    {
      var n :| n in rest;
      s := s + [n];
      rest := rest - {n};
    }
  }

  lemma TwiceCounts(t: seq<string>, i: nat, j: nat)
    requires i < j < |t| && t[i] == t[j]
    ensures multiset(t)[t[i]] >= 2
  {
    assert t == t[..j] + t[j..];
    assert t[..j][i] in multiset(t[..j]) && t[j..][0] in multiset(t[j..]);
  }

  lemma SortedListing(s: seq<string>, nodes: set<string>)
    requires Lists(s, nodes)
    ensures Lists(SortText(s), nodes) && Ordered(TextLe, SortText(s))
  {
    hide Ordered, Sort, TextLe;
    TextOrderIsTotal();
    SortOrdered(TextLe, s);
    SortKeepsElements(TextLe, s);
    var t := SortText(s);
    forall i, j | 0 <= i < j < |t| ensures t[i] != t[j] {
      OnceEach(s, t[i]);
      if t[i] == t[j] { TwiceCounts(t, i, j); }
    }
  }

  lemma {:induction false} OnceEach(s: seq<string>, x: string)
    requires forall i, j :: 0 <= i < j < |s| ==> s[i] != s[j]
    ensures multiset(s)[x] <= 1
  {
    if s != [] {
      assert s == [s[0]] + s[1..];
      OnceEach(s[1..], x);
      assert forall k :: 0 <= k < |s| - 1 ==> s[1..][k] == s[k + 1];
    }
  }

  /** `downstream_nodes`: sorted, each node once, and exactly the nodes other than the start that one
      or more edges reach, on every graph, cyclic ones included. */
  method DownstreamNodes(start: string, edges: seq<Edge>) returns (nodes: seq<string>)
    ensures forall n :: n in nodes <==> n != start && Downstream(edges, start, n)
    ensures forall i, j :: 0 <= i < j < |nodes| ==> nodes[i] != nodes[j]
    ensures Ordered(TextLe, nodes)
  {
    hide Ordered, TextLe, Downstream;
    var graph := BuildGraph(edges);
    ghost var targets := set e | e in edges :: e.target;
    var visited: set<string> := {};
    var queue := Listing(TargetsOf(graph, start));
    forall n | n in queue ensures n in targets && Downstream(edges, start, n) {
      assert Links(edges, start, n);
      assert Edge(start, n).target in targets;
      OneEdge(edges, start, n);
    }
    while queue != []
      invariant visited <= targets && forall n :: n in queue ==> n in targets
      invariant forall n :: n in visited || n in queue ==> Downstream(edges, start, n)
      invariant forall e :: e in edges && (e.source == start || e.source in visited) ==>
                  e.target in visited || e.target in queue
      decreases targets - visited, |queue|
    {
      var node := queue[0];
      assert queue == [node] + queue[1..];
      queue := queue[1..];
      if node !in visited {
        visited := visited + {node};
        var successors := Listing(TargetsOf(graph, node) - visited);
        SortedListing(successors, TargetsOf(graph, node) - visited);
        forall n | n in SortText(successors) ensures n in targets && Downstream(edges, start, n) {
          assert Links(edges, node, n);
          assert Edge(node, n).target in targets;
          DownstreamThenEdge(edges, start, node, n);
        }
        forall e | e in edges && e.source == node ensures e.target in visited || e.target in SortText(successors) {
          assert Links(edges, node, e.target);
        }
        queue := queue + SortText(successors);
      }
    }
    forall n | Downstream(edges, start, n) ensures n in visited {
      DownstreamIsAbsorbed(edges, start, visited, n);
    }
    var found := Listing(visited - {start});
    SortedListing(found, visited - {start});
    nodes := SortText(found);
  }

  lemma DownstreamIsAbsorbed(edges: seq<Edge>, start: string, nodes: set<string>, to: string)
    requires Absorbs(edges, start, nodes) && Downstream(edges, start, to)
    ensures to in nodes
  {
    var p :| Route(edges, p, start, to);
    AbsorbsAllDownstream(edges, start, nodes, p, to);
  }
}
