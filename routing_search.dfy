/**
 * A* search over the routing graph and what is built from its result
 * (services/routing-go/internal/routing/astar.go).
 *
 * The heap adapter `PriorityQueue` is modelled on its own, over `Item`
 * objects, with the index bookkeeping container/heap relies on. The search
 * itself keeps its open set as a sequence from which it pops the first entry
 * of least priority, and runs for at most `fuel` pops.
 */
module RoutingSearch {
  import opened Geo
  import opened RoutingGraph

  // ---------------------------------------------------------------------
  // The heap adapter

  class Item {
    var nodeID: string
    var priority: real
    var index: int

    constructor(nodeID: string, priority: real)
      ensures this.nodeID == nodeID && this.priority == priority && index == 0
    {
      this.nodeID := nodeID;
      this.priority := priority;
      index := 0;
    }
  }

  /** `PriorityQueue`: a slice of items, each knowing its own position. */
  class PriorityQueue {
    var items: seq<Item>

    constructor()
      ensures items == [] && Indexed()
    {
      items := [];
    }

    /** Every item records its position in the slice. */
    ghost predicate Indexed()
      reads this, items
    {
      forall i :: 0 <= i < |items| ==> items[i].index == i
    }

    /** `Len`: the number of queued items. */
    function Len(): (n: nat)
      reads this
      ensures n == |items| && (n == 0 <==> items == [])
    {
      |items|
    }

    /** `Less`: item i has strictly smaller priority than item j. */
    predicate Less(i: int, j: int)
      reads this, items
      requires 0 <= i < |items| && 0 <= j < |items|
    {
      items[i].priority < items[j].priority
    }

    /** `Swap`: exchange two positions and renumber both items. */
    method Swap(i: int, j: int)
      requires Indexed() && 0 <= i < |items| && 0 <= j < |items|
      modifies this, items[i], items[j]
      ensures items == old(items)[i := old(items[j])][j := old(items[i])]
      ensures Indexed()
      ensures forall x :: x in old(items) ==> x.nodeID == old(x.nodeID) && x.priority == old(x.priority)
    {
      var a, b := items[i], items[j];
      items := items[i := b][j := a];
      items[i].index := i;
      items[j].index := j;
    }

    /** `Push`: append an item that is not queued yet, at the next position. */
    method Push(x: Item)
      requires Indexed() && x !in items
      modifies this, x
      ensures items == old(items) + [x] && x.index == |old(items)|
      ensures x.nodeID == old(x.nodeID) && x.priority == old(x.priority)
      ensures Indexed()
    {
      var n := |items|;
      x.index := n;
      items := items + [x];
    }

    /** `Pop`: remove the last item and mark it as no longer queued. */
    method Pop() returns (x: Item)
      requires Indexed() && |items| > 0
      modifies this, items[|items| - 1]
      ensures x == old(items[|items| - 1]) && items == old(items[..|items| - 1])
      ensures x.index == -1 && x !in items
      ensures x.nodeID == old(x.nodeID) && x.priority == old(x.priority)
      ensures Indexed()
    {
      var n := |items|;
      x := items[n - 1];
      x.index := -1;
      items := items[..n - 1];
    }
  }

  /** An indexed queue holds every item at most once. */
  lemma IndexedItemsDistinct(pq: PriorityQueue)
    requires pq.Indexed()
    ensures forall i, j :: 0 <= i < |pq.items| && 0 <= j < |pq.items| && pq.items[i] == pq.items[j] ==> i == j
  {
    forall i, j | 0 <= i < |pq.items| && 0 <= j < |pq.items| && pq.items[i] == pq.items[j]
      ensures i == j
    {
      assert pq.items[i].index == i && pq.items[j].index == j;
    }
  }

  // ---------------------------------------------------------------------
  // The search

  datatype QueueEntry = QueueEntry(nodeID: string, priority: real)

  /** The entry the heap pops: the first one of least priority. */
  method MinIndex(queue: seq<QueueEntry>) returns (m: nat)
    requires |queue| > 0
    ensures m < |queue|
    ensures forall j :: 0 <= j < |queue| ==> queue[m].priority <= queue[j].priority
    ensures forall j :: 0 <= j < m ==> queue[j].priority > queue[m].priority
  {
    m := 0;
    var j := 1;
    while j < |queue|
      invariant m < j <= |queue|
      invariant forall k :: 0 <= k < j ==> queue[m].priority <= queue[k].priority
      invariant forall k :: 0 <= k < m ==> queue[k].priority > queue[m].priority
    {
      if queue[j].priority < queue[m].priority {
        m := j;
      }
      j := j + 1;
    }
  }

  /** `gScore[id]`, with Go's zero value for an id the map does not hold. */
  function Score(gScore: map<string, real>, id: string): real
  {
    if id in gScore then gScore[id] else 0.0
  }

  /** The search's working maps and open set. */
  datatype Search = Search(
    queue: seq<QueueEntry>,
    cameFrom: map<string, string>,
    gScore: map<string, real>,
    fScore: map<string, real>)

  /** The predecessor link of v: it leads to the start or to another node with
      a predecessor, along a stored edge `via[v]` of positive weight whose
      weight fits between the two scores. */
  ghost predicate Linked(edges: map<string, seq<Edge>>, start: string, s: Search, via: map<string, Edge>, v: string)
    requires v in s.cameFrom && v in via
  {
    var u := s.cameFrom[v];
    && (u == start || u in s.cameFrom)
    && u in s.gScore && v in s.gScore
    && via[v] in EdgesOf(edges, u) && via[v].to == v && via[v].weight > 0.0
    && s.gScore[u] + via[v].weight <= s.gScore[v]
  }

  /** The invariant of the search: every node has a non-negative score, the
      start keeps score 0 and never gets a predecessor, every predecessor link
      is `Linked`, and everything queued is the start or has a predecessor. */
  ghost predicate SearchInv(nodes: map<string, Node>, edges: map<string, seq<Edge>>, start: string,
                            s: Search, via: map<string, Edge>)
  {
    && s.gScore.Keys == nodes.Keys
    && start in s.gScore && s.gScore[start] == 0.0
    && (forall id :: id in s.gScore ==> s.gScore[id] >= 0.0)
    && start !in s.cameFrom
    && via.Keys == s.cameFrom.Keys
    && (forall v :: v in s.cameFrom ==> Linked(edges, start, s, via, v))
    && (forall i :: 0 <= i < |s.queue| ==> s.queue[i].nodeID == start || s.queue[i].nodeID in s.cameFrom)
  }

  lemma EdgeWeightPositive(edges: map<string, seq<Edge>>, id: string, e: Edge)
    requires PositiveWeights(edges) && e in EdgesOf(edges, id)
    ensures e.weight > 0.0
  {
    var i :| 0 <= i < |edges[id]| && edges[id][i] == e;
  }

  /** The search after improving `edge.to` through `current`. */
  function Relaxed(s: Search, current: string, edge: Edge, priority: real): Search
  {
    s.(cameFrom := s.cameFrom[edge.to := current],
       gScore := s.gScore[edge.to := Score(s.gScore, current) + edge.weight],
       fScore := s.fScore[edge.to := priority],
       queue := s.queue + [QueueEntry(edge.to, priority)])
  }

  /** Conditions under which `current` may relax `edge`. */
  ghost predicate CanRelax(nodes: map<string, Node>, edges: map<string, seq<Edge>>, start: string,
                           s: Search, via: map<string, Edge>, current: string, edge: Edge)
  {
    && SearchInv(nodes, edges, start, s, via)
    && (current == start || current in s.cameFrom)
    && edge in EdgesOf(edges, current) && edge.weight > 0.0
    && Score(s.gScore, current) + edge.weight < Score(s.gScore, edge.to)
  }

  /** The improved node is a known node other than the start and the current one. */
  lemma RelaxedTarget(nodes: map<string, Node>, edges: map<string, seq<Edge>>, start: string,
                      s: Search, via: map<string, Edge>, current: string, edge: Edge)
    requires CanRelax(nodes, edges, start, s, via, current, edge)
    ensures edge.to in nodes && edge.to in s.gScore && edge.to != start && edge.to != current
    ensures current in s.gScore
  {
    assert current in s.gScore by {
      if current != start {
        assert Linked(edges, start, s, via, current);
      }
    }
  }

  /** Every predecessor link is still `Linked` after the improvement. */
  lemma RelaxedLink(nodes: map<string, Node>, edges: map<string, seq<Edge>>, start: string,
                    s: Search, via: map<string, Edge>, current: string, edge: Edge, priority: real, v: string)
    requires CanRelax(nodes, edges, start, s, via, current, edge)
    requires v in Relaxed(s, current, edge, priority).cameFrom
    ensures v in via[edge.to := edge]
    ensures Linked(edges, start, Relaxed(s, current, edge, priority), via[edge.to := edge], v)
  {
    RelaxedTarget(nodes, edges, start, s, via, current, edge);
    if v != edge.to {
      assert Linked(edges, start, s, via, v);
    }
  }

  /** Relaxing an edge out of the start or a node with a predecessor keeps
      the search invariant. */
  lemma RelaxKeepsInv(nodes: map<string, Node>, edges: map<string, seq<Edge>>, start: string,
                      s: Search, via: map<string, Edge>, current: string, edge: Edge, priority: real)
    requires CanRelax(nodes, edges, start, s, via, current, edge)
    ensures edge.to in nodes && edge.to != start && edge.to != current
    ensures SearchInv(nodes, edges, start, Relaxed(s, current, edge, priority), via[edge.to := edge])
  {
    RelaxedTarget(nodes, edges, start, s, via, current, edge);
    var s' := Relaxed(s, current, edge, priority);
    assert s'.gScore.Keys == s.gScore.Keys;
    assert via[edge.to := edge].Keys == s'.cameFrom.Keys;
    forall i | 0 <= i < |s'.queue|
      ensures s'.queue[i].nodeID == start || s'.queue[i].nodeID in s'.cameFrom
    {
      if i < |s.queue| {
        assert s'.queue[i] == s.queue[i];
      }
    }
    forall v | v in s'.cameFrom
      ensures v in via[edge.to := edge] && Linked(edges, start, s', via[edge.to := edge], v)
    {
      RelaxedLink(nodes, edges, start, s, via, current, edge, priority, v);
    }
  }

  // ---------------------------------------------------------------------
  // Completeness: what an empty open set says

  /** The score every node but the start begins with, standing for infinity. */
  const Unreached: real := 1e18

  /** The nodes that have an entry in the open set. */
  function Ids(q: seq<QueueEntry>): set<string>
  {
    set i | 0 <= i < |q| :: q[i].nodeID
  }

  lemma IdsAppend(q: seq<QueueEntry>, x: QueueEntry)
    ensures Ids(q + [x]) == Ids(q) + {x.nodeID}
  {
    assert (q + [x])[|q|] == x;
    forall id | id in Ids(q)
      ensures id in Ids(q + [x])
    {
      var i :| 0 <= i < |q| && q[i].nodeID == id;
      assert (q + [x])[i] == q[i];
    }
  }

  lemma IdsRemove(q: seq<QueueEntry>, m: nat)
    requires m < |q|
    ensures Ids(q) - {q[m].nodeID} <= Ids(q[..m] + q[m + 1..])
  {
    var q' := q[..m] + q[m + 1..];
    forall id | id in Ids(q) && id != q[m].nodeID
      ensures id in Ids(q')
    {
      var i :| 0 <= i < |q| && q[i].nodeID == id;
      if i < m {
        assert q'[i] == q[i];
      } else {
        assert q'[i - 1] == q[i];
      }
    }
  }

  /** No edge out of `u` leads to a node whose score could still be improved through `u`. */
  ghost predicate EdgesTight(edges: map<string, seq<Edge>>, gScore: map<string, real>, u: string)
  {
    forall e :: e in EdgesOf(edges, u) ==> Score(gScore, e.to) <= Score(gScore, u) + e.weight
  }

  /** The frontier invariant: every node outside the open set (and outside
      `skip`, the node being expanded) has tight edges; every node scored
      below `Unreached` is the start or has a predecessor; and the goal, once
      scored that way, is in the open set. */
  ghost predicate Frontier(nodes: map<string, Node>, edges: map<string, seq<Edge>>, start: string, goal: string,
                           s: Search, skip: set<string>)
  {
    && (forall u :: u in nodes && u !in Ids(s.queue) && u !in skip ==> EdgesTight(edges, s.gScore, u))
    && (forall v :: v in s.gScore && s.gScore[v] < Unreached ==> v == start || v in s.cameFrom)
    && (goal == start || goal in s.cameFrom ==> goal in Ids(s.queue))
  }

  /** A walk through known nodes along stored edges. */
  ghost predicate IsWalk(nodes: map<string, Node>, edges: map<string, seq<Edge>>, p: seq<string>, used: seq<Edge>)
  {
    && |p| >= 1 && |used| == |p| - 1
    && (forall i :: 0 <= i < |p| ==> p[i] in nodes)
    && (forall i :: 0 <= i < |used| ==> used[i] in EdgesOf(edges, p[i]) && used[i].to == p[i + 1])
  }

  /** Some walk from `start` to `goal` weighs less than `bound`. */
  ghost predicate Reachable(nodes: map<string, Node>, edges: map<string, seq<Edge>>, start: string, goal: string, bound: real)
  {
    exists p, used :: IsWalk(nodes, edges, p, used) && p[0] == start && p[|p| - 1] == goal && Weight(used) < bound
  }

  /** The search as it begins satisfies the search invariant and the frontier invariant. */
  lemma InitialFrontier(nodes: map<string, Node>, edges: map<string, seq<Edge>>, start: string, goal: string,
                        gScore: map<string, real>, fScore: map<string, real>)
    requires PositiveWeights(edges) && start in nodes
    requires gScore == (map id | id in nodes :: Unreached)[start := 0.0]
    ensures SearchInv(nodes, edges, start, Search([QueueEntry(start, 0.0)], map[], gScore, fScore), map[])
    ensures Frontier(nodes, edges, start, goal, Search([QueueEntry(start, 0.0)], map[], gScore, fScore), {})
  {
    var q := [QueueEntry(start, 0.0)];
    assert q[0].nodeID == start;
    assert Ids(q) == {start};
    forall u, e | u in nodes && u != start && e in EdgesOf(edges, u)
      ensures Score(gScore, e.to) <= Score(gScore, u) + e.weight
    {
      EdgeWeightPositive(edges, u, e);
    }
  }

  /** Taking a node other than the goal out of the open set keeps the
      frontier invariant, except at the node taken. */
  lemma PopKeepsFrontier(nodes: map<string, Node>, edges: map<string, seq<Edge>>, start: string, goal: string,
                         s: Search, m: nat)
    requires Frontier(nodes, edges, start, goal, s, {}) && m < |s.queue| && s.queue[m].nodeID != goal
    ensures Frontier(nodes, edges, start, goal, s.(queue := s.queue[..m] + s.queue[m + 1..]), {s.queue[m].nodeID})
  {
    IdsRemove(s.queue, m);
  }

  /** Improving `edge.to` through `current` keeps the frontier invariant and
      only lowers scores; the score of `current` stays. */
  lemma RelaxKeepsFrontier(nodes: map<string, Node>, edges: map<string, seq<Edge>>, start: string, goal: string,
                           s: Search, current: string, edge: Edge, priority: real)
    requires Frontier(nodes, edges, start, goal, s, {current})
    requires edge.to != current && Score(s.gScore, current) + edge.weight < Score(s.gScore, edge.to)
    ensures
      var s' := Relaxed(s, current, edge, priority);
      && Frontier(nodes, edges, start, goal, s', {current})
      && Score(s'.gScore, edge.to) == Score(s.gScore, current) + edge.weight
      && Score(s'.gScore, current) == Score(s.gScore, current)
      && forall x :: Score(s'.gScore, x) <= Score(s.gScore, x)
  {
    var s' := Relaxed(s, current, edge, priority);
    IdsAppend(s.queue, QueueEntry(edge.to, priority));
    forall x
      ensures Score(s'.gScore, x) <= Score(s.gScore, x)
    {
    }
    forall u, e | u in nodes && u !in Ids(s'.queue) && u != current && e in EdgesOf(edges, u)
      ensures Score(s'.gScore, e.to) <= Score(s'.gScore, u) + e.weight
    {
      assert EdgesTight(edges, s.gScore, u);
    }
  }

  /** Once the expanded node's edges are tight, the invariant holds without exception. */
  lemma CloseFrontier(nodes: map<string, Node>, edges: map<string, seq<Edge>>, start: string, goal: string,
                      s: Search, current: string)
    requires Frontier(nodes, edges, start, goal, s, {current}) && EdgesTight(edges, s.gScore, current)
    ensures Frontier(nodes, edges, start, goal, s, {})
  {
  }

  /** Along a walk through nodes with tight edges, the score grows by at most the walk's weight. */
  lemma {:induction false} TightWalk(nodes: map<string, Node>, edges: map<string, seq<Edge>>, gScore: map<string, real>,
                                     p: seq<string>, used: seq<Edge>)
    requires IsWalk(nodes, edges, p, used)
    requires forall u :: u in nodes ==> EdgesTight(edges, gScore, u)
    ensures Score(gScore, p[|p| - 1]) <= Score(gScore, p[0]) + Weight(used)
    decreases |p|
  {
    if |used| > 0 {
      assert IsWalk(nodes, edges, p[1..], used[1..]) by {
        forall i | 0 <= i < |used| - 1
          ensures used[1..][i] in EdgesOf(edges, p[1..][i]) && used[1..][i].to == p[1..][i + 1]
        {
          assert used[1..][i] == used[i + 1];
        }
      }
      TightWalk(nodes, edges, gScore, p[1..], used[1..]);
      assert EdgesTight(edges, gScore, p[0]);
      assert used[0] in EdgesOf(edges, p[0]);
    }
  }

  /** An empty open set under the frontier invariant: no walk from the start
      to the goal weighs less than `Unreached`. */
  lemma EmptyFrontierUnreachable(nodes: map<string, Node>, edges: map<string, seq<Edge>>, start: string, goal: string,
                                 s: Search, via: map<string, Edge>)
    requires SearchInv(nodes, edges, start, s, via) && Frontier(nodes, edges, start, goal, s, {})
    requires s.queue == [] && goal in nodes
    ensures !Reachable(nodes, edges, start, goal, Unreached)
  {
    if Reachable(nodes, edges, start, goal, Unreached) {
      var p, used :| IsWalk(nodes, edges, p, used) && p[0] == start && p[|p| - 1] == goal && Weight(used) < Unreached;
      TightWalk(nodes, edges, s.gScore, p, used);
    }
  }

  /** The first `k` edges out of `current` are tight. */
  ghost predicate TightUpTo(gScore: map<string, real>, current: string, out: seq<Edge>, k: nat)
    requires k <= |out|
  {
    forall j :: 0 <= j < k ==> Score(gScore, out[j].to) <= Score(gScore, current) + out[j].weight
  }

  /** An edge that does not improve its target is tight already. */
  lemma SkipStep(gScore: map<string, real>, current: string, out: seq<Edge>, k: nat)
    requires k < |out| && TightUpTo(gScore, current, out, k)
    requires !(Score(gScore, current) + out[k].weight < Score(gScore, out[k].to))
    ensures TightUpTo(gScore, current, out, k + 1)
  {
  }

  /** Lowering scores while keeping that of `current` keeps earlier edges
      tight; one more tight edge extends the prefix. */
  lemma TightPrefix(gScore: map<string, real>, gScore': map<string, real>, current: string, out: seq<Edge>, k: nat)
    requires k < |out| && TightUpTo(gScore, current, out, k)
    requires forall x :: Score(gScore', x) <= Score(gScore, x)
    requires Score(gScore', current) == Score(gScore, current)
    requires Score(gScore', out[k].to) <= Score(gScore', current) + out[k].weight
    ensures TightUpTo(gScore', current, out, k + 1)
  {
  }

  /** Relaxing edge `k` out of `current` keeps both invariants and makes the
      first `k + 1` edges tight. */
  lemma RelaxStep(nodes: map<string, Node>, edges: map<string, seq<Edge>>, start: string, goal: string,
                  s: Search, via: map<string, Edge>, current: string, out: seq<Edge>, k: nat, priority: real)
    requires PositiveWeights(edges) && out == EdgesOf(edges, current) && k < |out|
    requires SearchInv(nodes, edges, start, s, via) && (current == start || current in s.cameFrom)
    requires Frontier(nodes, edges, start, goal, s, {current}) && TightUpTo(s.gScore, current, out, k)
    requires Score(s.gScore, current) + out[k].weight < Score(s.gScore, out[k].to)
    ensures
      var s' := Relaxed(s, current, out[k], priority);
      && SearchInv(nodes, edges, start, s', via[out[k].to := out[k]])
      && s.cameFrom.Keys <= s'.cameFrom.Keys && (current == start || current in s'.cameFrom)
      && Frontier(nodes, edges, start, goal, s', {current})
      && TightUpTo(s'.gScore, current, out, k + 1)
  {
    var edge := out[k];
    EdgeWeightPositive(edges, current, edge);
    RelaxKeepsInv(nodes, edges, start, s, via, current, edge, priority);
    RelaxKeepsFrontier(nodes, edges, start, goal, s, current, edge, priority);
    TightPrefix(s.gScore, Relaxed(s, current, edge, priority).gScore, current, out, k);
  }

  /** The inner loop of `AStar`: relax every edge out of `current`. */
  method RelaxEdges(dist: DistanceFn, nodes: map<string, Node>, edges: map<string, seq<Edge>>,
                    goalNode: Node, start: string, ghost goal: string, current: string, s: Search,
                    ghost via: map<string, Edge>)
    returns (r: Search, ghost via': map<string, Edge>)
    requires IsDistance(dist) && PositiveWeights(edges)
    requires SearchInv(nodes, edges, start, s, via)
    requires current == start || current in s.cameFrom
    requires Frontier(nodes, edges, start, goal, s, {current})
    ensures SearchInv(nodes, edges, start, r, via')
    ensures s.cameFrom.Keys <= r.cameFrom.Keys
    ensures Frontier(nodes, edges, start, goal, r, {})
  {
    r, via' := s, via;
    var out := EdgesOf(edges, current);
    var k := 0;
    while k < |out|
      invariant 0 <= k <= |out|
      invariant SearchInv(nodes, edges, start, r, via')
      invariant s.cameFrom.Keys <= r.cameFrom.Keys
      invariant current == start || current in r.cameFrom
      invariant Frontier(nodes, edges, start, goal, r, {current})
      invariant TightUpTo(r.gScore, current, out, k)
    {
      var edge := out[k];
      EdgeWeightPositive(edges, current, edge);
      var tentativeGScore := Score(r.gScore, current) + edge.weight;
      if tentativeGScore < Score(r.gScore, edge.to) {
        RelaxedTarget(nodes, edges, start, r, via', current, edge);
        var priority := tentativeGScore + Distance(dist, nodes[edge.to], goalNode);
        RelaxStep(nodes, edges, start, goal, r, via', current, out, k, priority);
        r := Relaxed(r, current, edge, priority);
        via' := via'[edge.to := edge];
      } else {
        SkipStep(r.gScore, current, out, k);
      }
      k := k + 1;
    }
    forall e | e in EdgesOf(edges, current)
      ensures Score(r.gScore, e.to) <= Score(r.gScore, current) + e.weight
    {
      var j :| 0 <= j < |out| && out[j] == e;
    }
    CloseFrontier(nodes, edges, start, goal, r, current);
  }

  /** Sum of the weights of a sequence of edges. */
  function Weight(es: seq<Edge>): real
  {
    if |es| == 0 then 0.0 else es[0].weight + Weight(es[1..])
  }

  /** Along a chain whose every step fits between the two scores, the total
      weight is at most the difference of the end scores. */
  lemma {:induction false} ChainWeight(path: seq<string>, used: seq<Edge>, gScore: map<string, real>)
    requires |path| >= 1 && |used| == |path| - 1
    requires forall i :: 0 <= i < |path| ==> path[i] in gScore
    requires forall i :: 0 <= i < |used| ==> gScore[path[i]] + used[i].weight <= gScore[path[i + 1]]
    ensures Weight(used) <= gScore[path[|path| - 1]] - gScore[path[0]]
    decreases |path|
  {
    if |used| > 0 {
      ChainWeight(path[1..], used[1..], gScore);
    }
  }

  /** `reconstructPath`: follow the predecessor links back from `current`.
      The links always go to a strictly lower `rank` (the search's g-scores),
      so the walk ends. The result is the chain of links ending at `current`
      and starting at a node without a predecessor. */
  method ReconstructPath(cameFrom: map<string, string>, current: string, ghost rank: map<string, real>)
    returns (path: seq<string>)
    requires current in rank
    requires forall v :: v in cameFrom ==> v in rank && cameFrom[v] in rank && rank[cameFrom[v]] < rank[v]
    ensures |path| >= 1 && path[|path| - 1] == current && path[0] !in cameFrom
    ensures forall i :: 1 <= i < |path| ==> path[i] in cameFrom && cameFrom[path[i]] == path[i - 1]
    ensures forall i :: 0 <= i < |path| ==> path[i] in rank
  {
    var cur := current;
    path := [current];
    while cur in cameFrom
      invariant cur in rank && |path| >= 1 && path[0] == cur && path[|path| - 1] == current
      invariant forall i :: 1 <= i < |path| ==> path[i] in cameFrom && cameFrom[path[i]] == path[i - 1]
      invariant forall i :: 0 <= i < |path| ==> path[i] in rank
      decreases set k | k in rank && rank[k] <= rank[cur]
    {
      ghost var previous := cur;
      ghost var before := set k | k in rank && rank[k] <= rank[cur];
      var next := cameFrom[cur];
      path := [next] + path;
      cur := next;
      assert previous in before && previous !in (set k | k in rank && rank[k] <= rank[cur]);
    }
  }

  /** Taking an entry out of the open set keeps the invariant; the node
      taken is the start or has a predecessor. */
  lemma PopKeepsInv(nodes: map<string, Node>, edges: map<string, seq<Edge>>, start: string,
                    s: Search, via: map<string, Edge>, m: nat)
    requires SearchInv(nodes, edges, start, s, via) && m < |s.queue|
    ensures s.queue[m].nodeID == start || s.queue[m].nodeID in s.cameFrom
    ensures SearchInv(nodes, edges, start, s.(queue := s.queue[..m] + s.queue[m + 1..]), via)
  {
    var q := s.queue[..m] + s.queue[m + 1..];
    forall i | 0 <= i < |q|
      ensures q[i].nodeID == start || q[i].nodeID in s.cameFrom
    {
      if i < m {
        assert q[i] == s.queue[i];
      } else {
        assert q[i] == s.queue[i + 1];
      }
    }
    var s' := s.(queue := q);
    forall v | v in s'.cameFrom
      ensures Linked(edges, start, s', via, v)
    {
      assert Linked(edges, start, s, via, v);
    }
  }

  /** With positive weights every predecessor has a strictly smaller score. */
  lemma LinksDescend(nodes: map<string, Node>, edges: map<string, seq<Edge>>, start: string,
                     s: Search, via: map<string, Edge>)
    requires SearchInv(nodes, edges, start, s, via)
    ensures forall v :: v in s.cameFrom ==>
      v in s.gScore && s.cameFrom[v] in s.gScore && s.gScore[s.cameFrom[v]] < s.gScore[v]
  {
    forall v | v in s.cameFrom
      ensures v in s.gScore && s.cameFrom[v] in s.gScore && s.gScore[s.cameFrom[v]] < s.gScore[v]
    {
      assert Linked(edges, start, s, via, v);
    }
  }

  /** The relaxing edges along a predecessor chain. */
  ghost function UsedEdges(path: seq<string>, via: map<string, Edge>): (used: seq<Edge>)
    requires |path| >= 1
    requires forall i :: 1 <= i < |path| ==> path[i] in via
    ensures |used| == |path| - 1
  {
    seq(|path| - 1, i requires 0 <= i < |path| - 1 => via[path[i + 1]])
  }

  /** A predecessor chain that ends at a popped node and starts at a node
      without predecessor starts at the start, follows stored edges, and
      weighs at most the end node's score; a chain ending at the start is
      the start alone. */
  lemma FoundPath(nodes: map<string, Node>, edges: map<string, seq<Edge>>, start: string,
                  s: Search, via: map<string, Edge>, goal: string, path: seq<string>)
    requires SearchInv(nodes, edges, start, s, via)
    requires goal == start || goal in s.cameFrom
    requires |path| >= 1 && path[|path| - 1] == goal && path[0] !in s.cameFrom
    requires forall i :: 1 <= i < |path| ==> path[i] in s.cameFrom && s.cameFrom[path[i]] == path[i - 1]
    requires forall i :: 0 <= i < |path| ==> path[i] in s.gScore
    ensures path[0] == start
    ensures goal == start ==> path == [start]
    ensures forall i :: 1 <= i < |path| ==> path[i] in via
    ensures
      var used := UsedEdges(path, via);
      && Weight(used) <= s.gScore[goal]
      && forall i :: 0 <= i < |used| ==> used[i] in EdgesOf(edges, path[i]) && used[i].to == path[i + 1]
  {
    if |path| > 1 {
      assert Linked(edges, start, s, via, path[1]);
    }
    var used := UsedEdges(path, via);
    forall i | 0 <= i < |used|
      ensures s.gScore[path[i]] + used[i].weight <= s.gScore[path[i + 1]]
      ensures used[i] in EdgesOf(edges, path[i]) && used[i].to == path[i + 1]
    {
      assert Linked(edges, start, s, via, path[i + 1]);
    }
    ChainWeight(path, used, s.gScore);
  }

  /** The goal is popped: the path is rebuilt from the predecessor links and
      the goal's score is the distance reported. */
  method GoalReached(nodes: map<string, Node>, edges: map<string, seq<Edge>>, start: string,
                     s: Search, ghost via: map<string, Edge>, goal: string)
    returns (path: seq<string>, cost: real, ghost used: seq<Edge>)
    requires SearchInv(nodes, edges, start, s, via)
    requires goal == start || goal in s.cameFrom
    ensures cost == Score(s.gScore, goal) && cost >= 0.0
    ensures |path| > 0 && path[0] == start && path[|path| - 1] == goal
    ensures forall i :: 0 <= i < |path| ==> path[i] in nodes
    ensures |used| == |path| - 1 && Weight(used) <= cost
    ensures forall i :: 0 <= i < |path| - 1 ==> used[i] in EdgesOf(edges, path[i]) && used[i].to == path[i + 1]
    ensures goal == start ==> path == [start] && cost == 0.0
  {
    assert goal in s.gScore by {
      if goal != start {
        assert Linked(edges, start, s, via, goal);
      }
    }
    LinksDescend(nodes, edges, start, s, via);
    path := ReconstructPath(s.cameFrom, goal, s.gScore);
    cost := Score(s.gScore, goal);
    FoundPath(nodes, edges, start, s, via, goal, path);
    used := UsedEdges(path, via);
  }

  /** `AStar` with at most `fuel` pops from the open set; `exhausted` reports
      that the budget ran out first. A path found runs from the start to the
      goal along stored edges (`used`), and its total weight is at most the
      distance reported. When the open set runs empty without the goal,
      no walk from the start to the goal weighs less than `Unreached`. */
  method AStar(dist: DistanceFn, g: Graph, startID: string, goalID: string, fuel: nat)
    returns (path: seq<string>, cost: real, exhausted: bool, ghost used: seq<Edge>)
    requires IsDistance(dist) && PositiveWeights(g.edges)
    ensures startID !in g.nodes || goalID !in g.nodes ==> path == [] && cost == 0.0 && !exhausted
    ensures exhausted ==> path == [] && cost == 0.0
    ensures cost >= 0.0
    ensures |path| > 0 ==> path[0] == startID && path[|path| - 1] == goalID
    ensures forall i :: 0 <= i < |path| ==> path[i] in g.nodes
    ensures |path| > 0 ==> |used| == |path| - 1 && Weight(used) <= cost
    ensures forall i :: 0 <= i < |path| - 1 ==> used[i] in EdgesOf(g.edges, path[i]) && used[i].to == path[i + 1]
    ensures startID == goalID && startID in g.nodes && fuel > 0 ==> path == [startID] && cost == 0.0
    ensures !exhausted && path == [] && startID in g.nodes && goalID in g.nodes ==>
      !Reachable(g.nodes, g.edges, startID, goalID, Unreached)
  {
    path, cost, exhausted, used := [], 0.0, false, [];
    if startID !in g.nodes || goalID !in g.nodes {
      return;
    }
    var nodes, edges := g.nodes, g.edges;
    var startNode, goalNode := nodes[startID], nodes[goalID];
    var gScore := map id | id in nodes :: Unreached;
    var fScore := map id | id in nodes :: Unreached;
    gScore := gScore[startID := 0.0];
    fScore := fScore[startID := Distance(dist, startNode, goalNode)];
    var s := Search([QueueEntry(startID, 0.0)], map[], gScore, fScore);
    ghost var via: map<string, Edge> := map[];
    InitialFrontier(nodes, edges, startID, goalID, gScore, fScore);
    var remaining := fuel;
    while |s.queue| > 0 && remaining > 0
      invariant remaining <= fuel
      invariant SearchInv(nodes, edges, startID, s, via)
      invariant remaining == fuel ==> s.queue == [QueueEntry(startID, 0.0)]
      invariant startID == goalID ==> remaining == fuel
      invariant path == [] && cost == 0.0 && !exhausted
      invariant Frontier(nodes, edges, startID, goalID, s, {})
      decreases remaining
    {
      remaining := remaining - 1;
      var m := MinIndex(s.queue);
      var currentID := s.queue[m].nodeID;
      PopKeepsInv(nodes, edges, startID, s, via, m);
      ghost var before := s;
      s := s.(queue := s.queue[..m] + s.queue[m + 1..]);
      if currentID == goalID {
        path, cost, used := GoalReached(nodes, edges, startID, s, via, currentID);
        return;
      }
      PopKeepsFrontier(nodes, edges, startID, goalID, before, m);
      s, via := RelaxEdges(dist, nodes, edges, goalNode, startID, goalID, currentID, s, via);
    }
    exhausted := |s.queue| > 0;
    if !exhausted {
      EmptyFrontierUnreachable(nodes, edges, startID, goalID, s, via);
    }
  }

  // ---------------------------------------------------------------------
  // Directions

  /** Which of the three sentences an instruction uses. */
  datatype InstructionKind = StartJourney | Continue | TurnTowardsDestination

  /** An instruction: its sentence and the leg's length (km). */
  datatype Instruction = Instruction(kind: InstructionKind, distance: real)

  /** The sentence for leg i of a path of n nodes. */
  function KindAt(i: nat, n: nat): InstructionKind
  {
    if i == 0 then StartJourney else if i == n - 2 then TurnTowardsDestination else Continue
  }

  /** Leg 0 starts the journey, the last leg turns towards the destination
      once there are at least two legs, and every other leg continues; a
      single-leg path only starts the journey. */
  lemma KindsAlongPath(n: nat)
    requires n >= 2
    ensures KindAt(0, n) == StartJourney
    ensures n >= 3 ==> KindAt(n - 2, n) == TurnTowardsDestination
    ensures forall i :: 0 < i < n - 2 ==> KindAt(i, n) == Continue
    ensures forall i :: 0 <= i < n - 1 && KindAt(i, n) == StartJourney ==> i == 0
    ensures forall i :: 0 <= i < n - 1 && KindAt(i, n) == TurnTowardsDestination ==> i == n - 2 && n >= 3
  {
  }

  /** `GenerateInstructions`: one instruction per leg of the path. */
  method GenerateInstructions(dist: DistanceFn, g: Graph, path: seq<string>) returns (instructions: seq<Instruction>)
    requires IsDistance(dist)
    requires forall i :: 0 <= i < |path| ==> path[i] in g.nodes
    ensures |path| < 2 ==> instructions == []
    ensures |path| >= 2 ==> |instructions| == |path| - 1
    ensures forall i :: 0 <= i < |instructions| ==>
      && instructions[i].kind == KindAt(i, |path|)
      && instructions[i].distance == Distance(dist, g.nodes[path[i]], g.nodes[path[i + 1]])
      && instructions[i].distance >= 0.0
  {
    instructions := [];
    if |path| < 2 {
      return;
    }
    var i := 0;
    while i < |path| - 1
      invariant 0 <= i <= |path| - 1 && |instructions| == i
      invariant forall k :: 0 <= k < i ==>
        && instructions[k].kind == KindAt(k, |path|)
        && instructions[k].distance == Distance(dist, g.nodes[path[k]], g.nodes[path[k + 1]])
        && instructions[k].distance >= 0.0
    {
      var fromNode := g.nodes[path[i]];
      var toNode := g.nodes[path[i + 1]];
      var d := Distance(dist, fromNode, toNode);
      var kind := Continue;
      if i == 0 {
        kind := StartJourney;
      } else if i == |path| - 2 {
        kind := TurnTowardsDestination;
      }
      instructions := instructions + [Instruction(kind, d)];
      i := i + 1;
    }
  }
}
