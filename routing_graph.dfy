/**
 * The routing service's graph (services/routing-go/internal/routing/graph.go):
 * named nodes with coordinates and adjacency lists keyed by node id. Every
 * edge is stored in both directions.
 */
module RoutingGraph {
  import opened Geo

  datatype Node = Node(id: string, name: string, lat: real, lon: real)

  datatype Edge = Edge(from: string, to: string, weight: real)

  /** The adjacency list of `id`; Go yields an empty (nil) slice for a missing key. */
  function EdgesOf(edges: map<string, seq<Edge>>, id: string): seq<Edge>
  {
    if id in edges then edges[id] else []
  }

  /** The adjacency lists after `AddEdge(from, to, weight)`: `from -> to` is
      appended to the list of `from`, then `to -> from` to the list of `to`
      (so a self-loop is appended twice to the same list). */
  function WithEdge(edges: map<string, seq<Edge>>, from: string, to: string, weight: real): map<string, seq<Edge>>
  {
    var forward := edges[from := EdgesOf(edges, from) + [Edge(from, to, weight)]];
    forward[to := EdgesOf(forward, to) + [Edge(to, from, weight)]]
  }

  /** What `AddEdge` does to each list: both endpoints gain exactly their
      direction of the edge at the end, and no other list changes. */
  lemma WithEdgeLists(edges: map<string, seq<Edge>>, from: string, to: string, weight: real)
    ensures var r := WithEdge(edges, from, to, weight);
      && (from != to ==>
            && EdgesOf(r, from) == EdgesOf(edges, from) + [Edge(from, to, weight)]
            && EdgesOf(r, to) == EdgesOf(edges, to) + [Edge(to, from, weight)])
      && (from == to ==>
            EdgesOf(r, from) == EdgesOf(edges, from) + [Edge(from, from, weight), Edge(from, from, weight)])
      && r.Keys == edges.Keys + {from, to}
      && (forall id :: id != from && id != to ==> EdgesOf(r, id) == EdgesOf(edges, id))
  {
  }

  /** The directed edges that `AddEdge(from, to, weight)` appends to the list of `id`. */
  function Incident(from: string, to: string, weight: real, id: string): seq<Edge>
  {
    (if id == from then [Edge(from, to, weight)] else []) + (if id == to then [Edge(to, from, weight)] else [])
  }

  /** Every list grows by exactly its incident edges, in order. */
  lemma WithEdgeIncident(edges: map<string, seq<Edge>>, from: string, to: string, weight: real, id: string)
    ensures EdgesOf(WithEdge(edges, from, to, weight), id) == EdgesOf(edges, id) + Incident(from, to, weight, id)
  {
    WithEdgeLists(edges, from, to, weight);
  }

  /** Edges are not deduplicated: adding the same road twice leaves two
      copies in each direction. */
  lemma WithEdgeTwice(edges: map<string, seq<Edge>>, from: string, to: string, weight: real)
    requires from != to
    ensures var r := WithEdge(WithEdge(edges, from, to, weight), from, to, weight);
      && EdgesOf(r, from) == EdgesOf(edges, from) + [Edge(from, to, weight), Edge(from, to, weight)]
      && EdgesOf(r, to) == EdgesOf(edges, to) + [Edge(to, from, weight), Edge(to, from, weight)]
  {
    var once := WithEdge(edges, from, to, weight);
    WithEdgeLists(edges, from, to, weight);
    WithEdgeLists(once, from, to, weight);
  }

  /** Every stored edge leaves the node whose list holds it and ends at a
      known node, and every list belongs to a known node. */
  ghost predicate Closed(nodes: map<string, Node>, edges: map<string, seq<Edge>>)
  {
    && (forall id :: id in edges ==> id in nodes)
    && (forall id, i :: id in edges && 0 <= i < |edges[id]| ==>
          edges[id][i].from == id && edges[id][i].to in nodes)
  }

  ghost predicate PositiveWeights(edges: map<string, seq<Edge>>)
  {
    forall id, i :: id in edges && 0 <= i < |edges[id]| ==> edges[id][i].weight > 0.0
  }

  /** Adding a road between two known nodes keeps the graph closed, and a
      positive weight keeps all weights positive. */
  lemma WithEdgeKeepsClosed(nodes: map<string, Node>, edges: map<string, seq<Edge>>, from: string, to: string, weight: real)
    requires Closed(nodes, edges) && from in nodes && to in nodes
    ensures Closed(nodes, WithEdge(edges, from, to, weight))
    ensures PositiveWeights(edges) && weight > 0.0 ==> PositiveWeights(WithEdge(edges, from, to, weight))
  {
    var r: map<string, seq<Edge>> := WithEdge(edges, from, to, weight);
    WithEdgeLists(edges, from, to, weight);
    forall id: string, i: int | id in r && 0 <= i < |r[id]|
      ensures r[id][i].from == id && r[id][i].to in nodes
      ensures PositiveWeights(edges) && weight > 0.0 ==> r[id][i].weight > 0.0
    {
      assert r[id] == EdgesOf(r, id);
      if id != from && id != to {
        assert r[id] == edges[id];
      } else if i < |EdgesOf(edges, id)| {
        assert r[id][i] == EdgesOf(edges, id)[i];
      } else {
        assert r[id][i] == Edge(id, if id == from then to else from, weight);
      }
    }
    assert Closed(nodes, r);
  }

  /** `Distance`: the haversine distance between two nodes' coordinates. */
  function Distance(dist: DistanceFn, a: Node, b: Node): (d: real)
    requires IsDistance(dist)
    ensures d >= 0.0
    ensures a.lat == b.lat && a.lon == b.lon ==> d == 0.0
  {
    dist(Coord(a.lat, a.lon), Coord(b.lat, b.lon))
  }

  /** `Graph`: the node table and the adjacency lists, updated in place. */
  class Graph {
    var nodes: map<string, Node>
    var edges: map<string, seq<Edge>>

    /** `NewGraph`. */
    constructor()
      ensures nodes == map[] && edges == map[]
    {
      nodes := map[];
      edges := map[];
    }

    /** `AddNode`: store (or replace) the node under its id. */
    method AddNode(n: Node)
      modifies this
      ensures nodes == old(nodes)[n.id := n] && edges == old(edges)
    {
      nodes := nodes[n.id := n];
    }

    /** `AddEdge`: append the edge in both directions. A road between two
        known nodes keeps the graph closed, and a positive weight keeps every
        weight positive. */
    method AddEdge(from: string, to: string, weight: real)
      modifies this
      ensures nodes == old(nodes) && edges == WithEdge(old(edges), from, to, weight)
      ensures Closed(old(nodes), old(edges)) && from in nodes && to in nodes ==> Closed(nodes, edges)
      ensures (Closed(old(nodes), old(edges)) && from in nodes && to in nodes
        && PositiveWeights(old(edges)) && weight > 0.0) ==> PositiveWeights(edges)
    {
      ghost var before := edges;
      edges := edges[from := EdgesOf(edges, from) + [Edge(from, to, weight)]];
      edges := edges[to := EdgesOf(edges, to) + [Edge(to, from, weight)]];
      if Closed(nodes, before) && from in nodes && to in nodes {
        WithEdgeKeepsClosed(nodes, before, from, to, weight);
      }
    }
  }
}
