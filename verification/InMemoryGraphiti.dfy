// The in-memory graph as the object it is, with its breadth-first path search.
module InMemoryGraphiti {
  import opened Basics
  import opened KnowledgeGraph

  // ---- Paths ------------------------------------------------------------------------

  datatype GraphPath = GraphPath(nodes: seq<string>, edges: seq<string>, length: nat)

  // A real chain of stored edges from s to t.
  ghost predicate Connects(g: Graph, p: GraphPath, s: string, t: string) {
    && |p.edges| == p.length && |p.nodes| == p.length + 1
    && p.nodes[0] == s && p.nodes[p.length] == t
    && forall i :: 0 <= i < p.length ==> LinkAt(g, p, i)
  }

  ghost predicate LinkAt(g: Graph, p: GraphPath, i: nat)
    requires i < |p.edges| && i + 1 < |p.nodes|
  {
    p.edges[i] in g.edges && g.edges[p.edges[i]].source == p.nodes[i] && g.edges[p.edges[i]].target == p.nodes[i + 1]
  }

  function Extend(p: GraphPath, e: Edge): GraphPath {
    GraphPath(p.nodes + [e.target], p.edges + [e.id], p.length + 1)
  }

  lemma {:induction false} ExtendConnects(g: Graph, p: GraphPath, s: string, t: string, e: Edge)
    requires Connects(g, p, s, t) && e.id in g.edges && g.edges[e.id] == e && e.source == t
    ensures Connects(g, Extend(p, e), s, e.target)
  {
    var q := Extend(p, e);
    forall i | 0 <= i < q.length
      ensures LinkAt(g, q, i)
    {
      if i < p.length {
        assert LinkAt(g, p, i);
      }
    }
  }

  // ---- The search's invariant -----------------------------------------------------------

  datatype Item = Item(nodeId: string, path: GraphPath)

  // `dist` records at which length each visited node was expanded.
  type Distances = map<string, nat>

  // The node was expanded at length d or less, or waits in the queue to be.
  ghost predicate Covered(dist: Distances, queue: seq<Item>, node: string, d: nat) {
    || (node in dist && dist[node] <= d)
    || exists j :: 0 <= j < |queue| && queue[j].nodeId == node && queue[j].path.length <= d
  }

  // The queue holds chains from the source, in order of length, no two lengths more than one apart.
  ghost predicate QueueSound(g: Graph, s: string, maxDepth: int, dist: Distances, queue: seq<Item>) {
    && (forall j :: 0 <= j < |queue| ==> Connects(g, queue[j].path, s, queue[j].nodeId))
    && (forall i, j :: 0 <= i <= j < |queue| ==>
          queue[i].path.length <= queue[j].path.length <= queue[i].path.length + 1)
    && (forall v, j :: v in dist && 0 <= j < |queue| ==> dist[v] <= queue[j].path.length)
    && (forall j :: 0 <= j < |queue| ==> queue[j].path.length == 0 || queue[j].path.length <= maxDepth)
  }

  // Where an edge out of a visited node leads: covered one further on, or cut off by the depth bound.
  ghost predicate EdgeCovered(t: string, maxDepth: int, dist: Distances, queue: seq<Item>, e: Edge)
    requires e.source in dist
  {
    Covered(dist, queue, e.target, dist[e.source] + 1) || (dist[e.source] + 1 >= maxDepth && e.target != t)
  }

  ghost predicate FrontierExcept(
    g: Graph, s: string, t: string, maxDepth: int, dist: Distances, queue: seq<Item>, x: string)
  {
    && t !in dist
    && (Covered(dist, queue, s, 0) || maxDepth <= 0)
    && (forall id :: id in g.edges && g.edges[id].source in dist && g.edges[id].source != x ==>
          EdgeCovered(t, maxDepth, dist, queue, g.edges[id]))
  }

  ghost predicate Frontier(g: Graph, s: string, t: string, maxDepth: int, dist: Distances, queue: seq<Item>) {
    && t !in dist
    && (Covered(dist, queue, s, 0) || maxDepth <= 0)
    && (forall id :: id in g.edges && g.edges[id].source in dist ==> EdgeCovered(t, maxDepth, dist, queue, g.edges[id]))
  }

  // Any admissible chain to the target has left an entry no longer than itself in the queue.
  lemma {:induction false} FrontierCatches(
    g: Graph, s: string, t: string, maxDepth: int, dist: Distances, queue: seq<Item>, p: GraphPath, i: nat)
    requires s != t && Frontier(g, s, t, maxDepth, dist, queue)
    requires Connects(g, p, s, t) && p.length <= maxDepth
    requires i <= p.length && Covered(dist, queue, p.nodes[i], i)
    ensures exists j :: 0 <= j < |queue| && queue[j].path.length <= p.length
    decreases p.length - i
  {
    if p.nodes[i] in dist && dist[p.nodes[i]] <= i {
      assert i < p.length;
      assert LinkAt(g, p, i);
      var e := g.edges[p.edges[i]];
      assert EdgeCovered(t, maxDepth, dist, queue, e);
      CoveredLater(dist, queue, e.target, dist[e.source] + 1, i + 1);
      FrontierCatches(g, s, t, maxDepth, dist, queue, p, i + 1);
    }
  }

  lemma {:induction false} CoveredLater(dist: Distances, queue: seq<Item>, node: string, d: nat, e: nat)
    requires d <= e
    ensures Covered(dist, queue, node, d) ==> Covered(dist, queue, node, e)
  {
  }

  lemma {:induction false} NoShorterChain(
    g: Graph, s: string, t: string, maxDepth: int, dist: Distances, queue: seq<Item>, p: GraphPath)
    requires s != t && Frontier(g, s, t, maxDepth, dist, queue) && QueueSound(g, s, maxDepth, dist, queue)
    requires Connects(g, p, s, t)
    ensures p.length > maxDepth || (queue != [] && queue[0].path.length <= p.length)
  {
    if p.length <= maxDepth {
      FrontierCatches(g, s, t, maxDepth, dist, queue, p, 0);
    }
  }

  // ---- Queue steps --------------------------------------------------------------------------

  lemma {:induction false} CoveredWithoutHead(dist: Distances, queue: seq<Item>, node: string, d: nat)
    requires queue != [] && Covered(dist, queue, node, d)
    ensures Covered(dist, queue[1..], node, d) || (node == queue[0].nodeId && queue[0].path.length <= d)
  {
    if !(node in dist && dist[node] <= d) {
      var j :| 0 <= j < |queue| && queue[j].nodeId == node && queue[j].path.length <= d;
      if j > 0 {
        assert queue[1..][j - 1] == queue[j];
      }
    }
  }

  // A visited node's leftover entry can go.
  lemma {:induction false} DropVisited(g: Graph, s: string, t: string, maxDepth: int, dist: Distances, queue: seq<Item>)
    requires Frontier(g, s, t, maxDepth, dist, queue) && QueueSound(g, s, maxDepth, dist, queue)
    requires queue != [] && queue[0].nodeId in dist
    ensures Frontier(g, s, t, maxDepth, dist, queue[1..]) && QueueSound(g, s, maxDepth, dist, queue[1..])
  {
    forall node, d: nat | Covered(dist, queue, node, d)
      ensures Covered(dist, queue[1..], node, d)
    {
      CoveredWithoutHead(dist, queue, node, d);
    }
  }

  // So can an entry at the depth bound, unless it is the target: it is dropped without being marked.
  lemma {:induction false} DropCut(g: Graph, s: string, t: string, maxDepth: int, dist: Distances, queue: seq<Item>)
    requires Frontier(g, s, t, maxDepth, dist, queue) && QueueSound(g, s, maxDepth, dist, queue)
    requires queue != [] && queue[0].nodeId != t && queue[0].path.length >= maxDepth
    ensures Frontier(g, s, t, maxDepth, dist, queue[1..]) && QueueSound(g, s, maxDepth, dist, queue[1..])
  {
    forall id | id in g.edges && g.edges[id].source in dist
      ensures EdgeCovered(t, maxDepth, dist, queue[1..], g.edges[id])
    {
      var e := g.edges[id];
      assert EdgeCovered(t, maxDepth, dist, queue, e);
      if Covered(dist, queue, e.target, dist[e.source] + 1) {
        CoveredWithoutHead(dist, queue, e.target, dist[e.source] + 1);
      }
    }
    if Covered(dist, queue, s, 0) {
      CoveredWithoutHead(dist, queue, s, 0);
    }
  }

  // Mark the head visited: everything holds but for its own edges.
  lemma {:induction false} Expand(g: Graph, s: string, t: string, maxDepth: int, dist: Distances, queue: seq<Item>)
    requires Frontier(g, s, t, maxDepth, dist, queue) && QueueSound(g, s, maxDepth, dist, queue)
    requires queue != [] && queue[0].nodeId !in dist && queue[0].nodeId != t
    ensures var x := queue[0].nodeId;
      var after := dist[x := queue[0].path.length];
      FrontierExcept(g, s, t, maxDepth, after, queue[1..], x) && QueueSound(g, s, maxDepth, after, queue[1..])
  {
    var x := queue[0].nodeId;
    var after := dist[x := queue[0].path.length];
    forall node, d: nat | Covered(dist, queue, node, d)
      ensures Covered(after, queue[1..], node, d)
    {
      CoveredWithoutHead(dist, queue, node, d);
    }
    forall id | id in g.edges && g.edges[id].source in after && g.edges[id].source != x
      ensures EdgeCovered(t, maxDepth, after, queue[1..], g.edges[id])
    {
      assert EdgeCovered(t, maxDepth, dist, queue, g.edges[id]);
    }
  }

  lemma {:induction false} CoveredAppend(dist: Distances, queue: seq<Item>, item: Item)
    ensures forall node, d: nat :: Covered(dist, queue, node, d) ==> Covered(dist, queue + [item], node, d)
    ensures Covered(dist, queue + [item], item.nodeId, item.path.length)
  {
    var after := queue + [item];
    forall node, d: nat | Covered(dist, queue, node, d)
      ensures Covered(dist, after, node, d)
    {
      if !(node in dist && dist[node] <= d) {
        var j :| 0 <= j < |queue| && queue[j].nodeId == node && queue[j].path.length <= d;
        assert after[j] == queue[j];
      }
    }
    assert after[|queue|] == item;
  }

  lemma {:induction false} PushSound(g: Graph, s: string, maxDepth: int, dist: Distances, queue: seq<Item>, item: Item)
    requires QueueSound(g, s, maxDepth, dist, queue)
    requires Connects(g, item.path, s, item.nodeId) && item.path.length <= maxDepth
    requires forall v :: v in dist ==> dist[v] <= item.path.length
    requires forall j :: 0 <= j < |queue| ==> queue[j].path.length <= item.path.length <= queue[j].path.length + 1
    ensures QueueSound(g, s, maxDepth, dist, queue + [item])
  {
  }

  lemma {:induction false} PushFrontier(
    g: Graph, s: string, t: string, maxDepth: int, dist: Distances, queue: seq<Item>, x: string, item: Item)
    requires FrontierExcept(g, s, t, maxDepth, dist, queue, x)
    ensures FrontierExcept(g, s, t, maxDepth, dist, queue + [item], x)
  {
    CoveredAppend(dist, queue, item);
    forall id | id in g.edges && g.edges[id].source in dist && g.edges[id].source != x
      ensures EdgeCovered(t, maxDepth, dist, queue + [item], g.edges[id])
    {
      assert EdgeCovered(t, maxDepth, dist, queue, g.edges[id]);
    }
  }

  // The queue while the neighbours of an item are pushed: all of it lies at the item's depth or one further on.
  ghost predicate Pushing(
    g: Graph, s: string, t: string, maxDepth: int, dist: Distances, queue: seq<Item>, item: Item, reach: set<string>)
  {
    && FrontierExcept(g, s, t, maxDepth, dist, queue, item.nodeId)
    && QueueSound(g, s, maxDepth, dist, queue)
    && (forall j :: 0 <= j < |queue| ==> item.path.length <= queue[j].path.length <= item.path.length + 1)
    && (forall j :: 0 <= j < |queue| ==> queue[j].nodeId in reach)
  }

  lemma {:induction false} PushNext(
    g: Graph, s: string, t: string, maxDepth: int, dist: Distances, queue: seq<Item>, item: Item, e: Edge,
    reach: set<string>)
    requires Pushing(g, s, t, maxDepth, dist, queue, item, reach)
    requires Connects(g, item.path, s, item.nodeId) && item.path.length < maxDepth
    requires forall v :: v in dist ==> dist[v] <= item.path.length
    requires e.id in g.edges && g.edges[e.id] == e && e.source == item.nodeId && e.target in reach
    ensures var after := queue + [Item(e.target, Extend(item.path, e))];
      && Pushing(g, s, t, maxDepth, dist, after, item, reach)
      && Covered(dist, after, e.target, item.path.length + 1)
      && forall node, d: nat :: Covered(dist, queue, node, d) ==> Covered(dist, after, node, d)
  {
    var next := Item(e.target, Extend(item.path, e));
    ExtendConnects(g, item.path, s, item.nodeId, e);
    PushSound(g, s, maxDepth, dist, queue, next);
    PushFrontier(g, s, t, maxDepth, dist, queue, item.nodeId, next);
    CoveredAppend(dist, queue, next);
  }

  // ---- The object -----------------------------------------------------------------------------

  datatype Direction = Outgoing | Incoming | Both

  // The live edges of a list of ids, in its order.
  function Live(edges: map<string, Edge>, ids: seq<string>): seq<Edge> {
    if ids == [] then []
    else
      var n := |ids| - 1;
      Live(edges, ids[..n]) + if ids[n] in edges then [edges[ids[n]]] else []
  }

  lemma {:induction false} LiveMembers(edges: map<string, Edge>, ids: seq<string>)
    ensures forall e :: e in Live(edges, ids) <==> exists id :: id in ids && id in edges && edges[id] == e
  {
    if ids != [] {
      var n := |ids| - 1;
      LiveMembers(edges, ids[..n]);
      assert ids == ids[..n] + [ids[n]];
    }
  }

  // In agreement every listed edge is live, so the edges come one for one in the order of the list.
  lemma {:induction false} LiveInOrder(edges: map<string, Edge>, ids: seq<string>)
    requires forall id :: id in ids ==> id in edges
    ensures |Live(edges, ids)| == |ids|
    ensures forall i :: 0 <= i < |ids| ==> Live(edges, ids)[i] == edges[ids[i]]
  {
    if ids != [] {
      LiveInOrder(edges, ids[..|ids| - 1]);
    }
  }

  // In agreement, a node's outgoing edges are exactly the stored edges that start there.
  lemma {:induction false} OutgoingEdges(g: Graph, n: string, e: Edge)
    requires Agrees(g)
    ensures e in Live(g.edges, Listed(g.outgoing, n)) <==> e.id in g.edges && g.edges[e.id] == e && e.source == n
  {
    LiveMembers(g.edges, Listed(g.outgoing, n));
    ListedEdges(g, n, e.id);
    if e in Live(g.edges, Listed(g.outgoing, n)) {
      var id :| id in Listed(g.outgoing, n) && id in g.edges && g.edges[id] == e;
      assert g.edges[id].id == id;
    }
  }

  lemma {:induction false} IncomingEdges(g: Graph, n: string, e: Edge)
    requires Agrees(g)
    ensures e in Live(g.edges, Listed(g.incoming, n)) <==> e.id in g.edges && g.edges[e.id] == e && e.target == n
  {
    LiveMembers(g.edges, Listed(g.incoming, n));
    ListedEdges(g, n, e.id);
    if e in Live(g.edges, Listed(g.incoming, n)) {
      var id :| id in Listed(g.incoming, n) && id in g.edges && g.edges[id] == e;
      assert g.edges[id].id == id;
    }
  }

  // And they come one for one in the order of the lists.
  lemma {:induction false} ListsLive(g: Graph, n: string)
    requires Agrees(g)
    ensures |Live(g.edges, Listed(g.outgoing, n))| == |Listed(g.outgoing, n)|
    ensures |Live(g.edges, Listed(g.incoming, n))| == |Listed(g.incoming, n)|
    ensures forall i :: 0 <= i < |Listed(g.outgoing, n)| ==>
      Live(g.edges, Listed(g.outgoing, n))[i].id == Listed(g.outgoing, n)[i]
    ensures forall i :: 0 <= i < |Listed(g.incoming, n)| ==>
      Live(g.edges, Listed(g.incoming, n))[i].id == Listed(g.incoming, n)[i]
  {
    forall id
      ensures id in Listed(g.outgoing, n) || id in Listed(g.incoming, n) ==> id in g.edges && g.edges[id].id == id
    {
      ListedEdges(g, n, id);
    }
    LiveInOrder(g.edges, Listed(g.outgoing, n));
    LiveInOrder(g.edges, Listed(g.incoming, n));
  }

  // In agreement the edges listed for a node are the stored ones that leave it, or enter it.
  lemma {:induction false} EdgesAt(g: Graph, n: string)
    requires Agrees(g)
    ensures forall e :: e in Live(g.edges, Listed(g.outgoing, n)) <==>
        e.id in g.edges && g.edges[e.id] == e && e.source == n
    ensures forall e :: e in Live(g.edges, Listed(g.incoming, n)) <==>
        e.id in g.edges && g.edges[e.id] == e && e.target == n
  {
    forall e
      ensures e in Live(g.edges, Listed(g.outgoing, n)) <==> e.id in g.edges && g.edges[e.id] == e && e.source == n
      ensures e in Live(g.edges, Listed(g.incoming, n)) <==> e.id in g.edges && g.edges[e.id] == e && e.target == n
    {
      OutgoingEdges(g, n, e);
      IncomingEdges(g, n, e);
    }
  }

  // With the neighbours of x covered nothing is left out any more.
  lemma {:induction false} AllCovered(
    g: Graph, s: string, t: string, maxDepth: int, dist: Distances, queue: seq<Item>, x: string, neighbors: seq<Edge>)
    requires Agrees(g) && x in dist && neighbors == Live(g.edges, Listed(g.outgoing, x))
    requires FrontierExcept(g, s, t, maxDepth, dist, queue, x)
    requires forall k :: 0 <= k < |neighbors| ==> Covered(dist, queue, neighbors[k].target, dist[x] + 1)
    ensures Frontier(g, s, t, maxDepth, dist, queue)
  {
    forall id | id in g.edges && g.edges[id].source in dist
      ensures EdgeCovered(t, maxDepth, dist, queue, g.edges[id])
    {
      if g.edges[id].source == x {
        OutgoingEdges(g, x, g.edges[id]);
        var k :| 0 <= k < |neighbors| && neighbors[k] == g.edges[id];
      }
    }
  }

  class InMemoryGraphiti {
    var nodes: map<string, Node>
    var edges: map<string, Edge>
    var outgoingEdges: Index
    var incomingEdges: Index
    var changes: seq<Change>

    constructor ()
      ensures State() == EMPTY
    {
      nodes, edges, outgoingEdges, incomingEdges, changes := map[], map[], map[], map[], [];
    }

    function State(): Graph
      reads this
    {
      Graph(nodes, edges, outgoingEdges, incomingEdges, changes)
    }

    method AddNode(n: Node)
      modifies this
      ensures State() == KnowledgeGraph.AddNode(old(State()), n)
    {
      nodes := nodes[n.id := n];
      changes := changes + [NodeAdded(n.id)];
    }

    method UpdateNode(id: string, properties: Properties) returns (found: bool)
      modifies this
      ensures found <==> id in old(nodes)
      ensures State() == KnowledgeGraph.UpdateNode(old(State()), id, properties)
    {
      found := id in nodes;
      if found {
        nodes := nodes[id := nodes[id].(properties := nodes[id].properties + properties)];
        changes := changes + [NodeUpdated(id)];
      }
    }

    method RemoveNode(id: string) returns (found: bool)
      modifies this
      ensures found <==> id in old(nodes)
      ensures State() == KnowledgeGraph.RemoveNode(old(State()), id)
    {
      found := id in nodes;
      if !found {
        return;
      }
      var ids := Listed(outgoingEdges, id) + Listed(incomingEdges, id);
      var i := 0;
      while i < |ids|
        invariant i <= |ids|
        invariant RemoveEdges(State(), ids[i..]) == RemoveEdges(old(State()), ids)
      {
        var removed := RemoveEdge(ids[i]);
        assert ids[i..][1..] == ids[i + 1..];
        i := i + 1;
      }
      nodes := nodes - {id};
      outgoingEdges := outgoingEdges - {id};
      incomingEdges := incomingEdges - {id};
      changes := changes + [NodeRemoved(id)];
    }

    method AddEdge(e: Edge)
      modifies this
      ensures State() == KnowledgeGraph.AddEdge(old(State()), e)
    {
      edges := edges[e.id := e];
      outgoingEdges := outgoingEdges[e.source := Listed(outgoingEdges, e.source) + [e.id]];
      incomingEdges := incomingEdges[e.target := Listed(incomingEdges, e.target) + [e.id]];
      changes := changes + [EdgeAdded(e.id)];
    }

    method RemoveEdge(id: string) returns (found: bool)
      modifies this
      ensures found <==> id in old(edges)
      ensures State() == KnowledgeGraph.RemoveEdge(old(State()), id)
    {
      found := id in edges;
      if !found {
        return;
      }
      var e := edges[id];
      edges := edges - {id};
      if e.source in outgoingEdges {
        outgoingEdges := outgoingEdges[e.source := Splice(outgoingEdges[e.source], id)];
      }
      if e.target in incomingEdges {
        incomingEdges := incomingEdges[e.target := Splice(incomingEdges[e.target], id)];
      }
      changes := changes + [EdgeRemoved(id)];
    }

    method GetEdges(node: string, direction: Direction) returns (found: seq<Edge>)
      ensures found == (if direction != Incoming then Live(edges, Listed(outgoingEdges, node)) else [])
                     + (if direction != Outgoing then Live(edges, Listed(incomingEdges, node)) else [])
    {
      found := [];
      if direction != Incoming {
        found := LiveEdges(Listed(outgoingEdges, node));
      }
      if direction != Outgoing {
        var more := LiveEdges(Listed(incomingEdges, node));
        found := found + more;
      }
    }

    method LiveEdges(ids: seq<string>) returns (found: seq<Edge>)
      ensures found == Live(edges, ids)
    {
      found := [];
      var i := 0;
      while i < |ids|
        invariant i <= |ids|
        invariant found == Live(edges, ids[..i])
      {
        assert ids[..i + 1][..i] == ids[..i];
        if ids[i] in edges {
          found := found + [edges[ids[i]]];
        }
        i := i + 1;
      }
      assert ids[..|ids|] == ids;
    }

    // Push the head's unvisited neighbours, each one step further away.
    method PushNeighbors(
      ghost s: string, ghost t: string, maxDepth: int, ghost dist: Distances, visited: set<string>, item: Item,
      rest: seq<Item>)
      returns (queue: seq<Item>)
      requires Agrees(State()) && dist.Keys == visited
      requires item.nodeId in dist && dist[item.nodeId] == item.path.length && item.path.length < maxDepth
      requires Connects(State(), item.path, s, item.nodeId)
      requires forall v :: v in dist ==> dist[v] <= item.path.length
      requires forall j :: 0 <= j < |rest| ==> item.path.length <= rest[j].path.length <= item.path.length + 1
      requires forall j :: 0 <= j < |rest| ==> rest[j].nodeId in Reach(s)
      requires FrontierExcept(State(), s, t, maxDepth, dist, rest, item.nodeId)
      requires QueueSound(State(), s, maxDepth, dist, rest)
      ensures Frontier(State(), s, t, maxDepth, dist, queue) && QueueSound(State(), s, maxDepth, dist, queue)
      ensures forall j :: 0 <= j < |queue| ==> queue[j].nodeId in Reach(s)
    {
      queue := rest;
      var neighbors := GetEdges(item.nodeId, Outgoing);
      assert neighbors == Live(edges, Listed(outgoingEdges, item.nodeId));
      var i := 0;
      while i < |neighbors|
        invariant i <= |neighbors|
        invariant Pushing(State(), s, t, maxDepth, dist, queue, item, Reach(s))
        invariant forall k :: 0 <= k < i ==> Covered(dist, queue, neighbors[k].target, item.path.length + 1)
      {
        var e := neighbors[i];
        assert e in neighbors;
        OutgoingEdges(State(), item.nodeId, e);
        if e.target !in visited {
          var next := Item(e.target, Extend(item.path, e));
          PushNext(State(), s, t, maxDepth, dist, queue, item, e, Reach(s));
          queue := queue + [next];
        }
        i := i + 1;
      }
      AllCovered(State(), s, t, maxDepth, dist, queue, item.nodeId, neighbors);
    }

    // Where a search from s can get to at all.
    ghost function Reach(s: string): set<string>
      reads this
    {
      {s} + set id | id in edges :: edges[id].target
    }

    // Breadth-first search along outgoing edges, at most maxDepth of them.
    method FindPath(s: string, t: string, maxDepth: int) returns (r: Option<GraphPath>)
      requires Agrees(State())
      ensures r.Some? ==> Connects(State(), r.value, s, t)
      ensures r.Some? ==> forall p :: Connects(State(), p, s, t) ==> r.value.length <= p.length
      ensures s == t ==> r == Some(GraphPath([s], [], 0))
      ensures s != t ==> (r.Some? <==> exists p :: Connects(State(), p, s, t) && p.length <= maxDepth)
    {
      if s == t {
        return Some(GraphPath([s], [], 0));
      }
      var visited: set<string> := {};
      ghost var dist: Distances := map[];
      var queue := [Item(s, GraphPath([s], [], 0))];
      assert queue[0].nodeId == s && queue[0].path.length == 0;
      while queue != []
        invariant dist.Keys == visited
        invariant Frontier(State(), s, t, maxDepth, dist, queue) && QueueSound(State(), s, maxDepth, dist, queue)
        invariant forall j :: 0 <= j < |queue| ==> queue[j].nodeId in Reach(s)
        decreases Reach(s) - visited, |queue|
      {
        var item := queue[0];
        if item.nodeId == t {
          forall p | Connects(State(), p, s, t)
            ensures item.path.length <= p.length
          {
            NoShorterChain(State(), s, t, maxDepth, dist, queue, p);
          }
          return Some(item.path);
        }
        if item.path.length >= maxDepth {
          DropCut(State(), s, t, maxDepth, dist, queue);
          queue := queue[1..];
        } else if item.nodeId in visited {
          DropVisited(State(), s, t, maxDepth, dist, queue);
          queue := queue[1..];
        } else {
          Expand(State(), s, t, maxDepth, dist, queue);
          visited := visited + {item.nodeId};
          dist := dist[item.nodeId := item.path.length];
          queue := PushNeighbors(s, t, maxDepth, dist, visited, item, queue[1..]);
        }
      }
      forall p | Connects(State(), p, s, t)
        ensures p.length > maxDepth
      {
        NoShorterChain(State(), s, t, maxDepth, dist, queue, p);
      }
      r := None;
    }
  }
}
