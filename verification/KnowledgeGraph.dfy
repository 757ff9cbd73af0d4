// The in-memory knowledge graph as a value: node and edge maps, two adjacency indexes, a change journal.
module KnowledgeGraph {
  import opened Basics

  datatype Value = Text(text: string) | Number(number: real) | Flag(flag: bool) | Undefined

  type Properties = map<string, Value>

  datatype Node = Node(id: string, kind: string, caption: string, properties: Properties)

  datatype Edge = Edge(id: string, kind: string, source: string, target: string)

  datatype Change =
    | NodeAdded(nodeId: string)
    | NodeUpdated(nodeId: string)
    | NodeRemoved(nodeId: string)
    | EdgeAdded(edgeId: string)
    | EdgeRemoved(edgeId: string)

  type Index = map<string, seq<string>>

  function Listed(index: Index, node: string): seq<string> {
    if node in index then index[node] else []
  }

  // Remove the first occurrence, if any.
  function Splice(s: seq<string>, x: string): seq<string> {
    var i := Find(s, x);
    if i < |s| then s[..i] + s[i + 1..] else s
  }

  function Unlist(index: Index, node: string, edgeId: string): Index {
    if node in index then index[node := Splice(index[node], edgeId)] else index
  }

  function Enlist(index: Index, node: string, edgeId: string): Index {
    index[node := Listed(index, node) + [edgeId]]
  }

  datatype Graph = Graph(
    nodes: map<string, Node>,
    edges: map<string, Edge>,
    outgoing: Index,
    incoming: Index,
    changes: seq<Change>)

  const EMPTY := Graph(map[], map[], map[], map[], [])

  // ---- Mutators --------------------------------------------------------------------

  function AddNode(g: Graph, n: Node): Graph {
    g.(nodes := g.nodes[n.id := n], changes := g.changes + [NodeAdded(n.id)])
  }

  function UpdateNode(g: Graph, id: string, properties: Properties): Graph {
    if id in g.nodes then
      g.(nodes := g.nodes[id := g.nodes[id].(properties := g.nodes[id].properties + properties)],
         changes := g.changes + [NodeUpdated(id)])
    else g
  }

  function AddEdge(g: Graph, e: Edge): Graph {
    g.(edges := g.edges[e.id := e],
       outgoing := Enlist(g.outgoing, e.source, e.id),
       incoming := Enlist(g.incoming, e.target, e.id),
       changes := g.changes + [EdgeAdded(e.id)])
  }

  function RemoveEdge(g: Graph, id: string): Graph {
    if id in g.edges then
      g.(edges := g.edges - {id},
         outgoing := Unlist(g.outgoing, g.edges[id].source, id),
         incoming := Unlist(g.incoming, g.edges[id].target, id),
         changes := g.changes + [EdgeRemoved(id)])
    else g
  }

  function RemoveEdges(g: Graph, ids: seq<string>): Graph
    decreases |ids|
  {
    if ids == [] then g else RemoveEdges(RemoveEdge(g, ids[0]), ids[1..])
  }

  function RemoveNode(g: Graph, id: string): Graph {
    if id in g.nodes then
      var h := RemoveEdges(g, Listed(g.outgoing, id) + Listed(g.incoming, id));
      h.(nodes := h.nodes - {id}, outgoing := h.outgoing - {id}, incoming := h.incoming - {id},
         changes := h.changes + [NodeRemoved(id)])
    else g
  }

  // ---- Index agreement -----------------------------------------------------------------

  // Each list of the index holds the ids of the live edges with that end, once each.
  ghost predicate Indexes(index: Index, ends: map<string, string>) {
    && (forall n :: Distinct(Listed(index, n)))
    && (forall n, id :: id in Listed(index, n) <==> id in ends && ends[id] == n)
  }

  ghost function Sources(edges: map<string, Edge>): map<string, string> {
    map id | id in edges :: edges[id].source
  }

  ghost function Targets(edges: map<string, Edge>): map<string, string> {
    map id | id in edges :: edges[id].target
  }

  ghost predicate Agrees(g: Graph) {
    && (forall id :: id in g.edges ==> g.edges[id].id == id)
    && Indexes(g.outgoing, Sources(g.edges))
    && Indexes(g.incoming, Targets(g.edges))
  }

  lemma {:induction false} SpliceMembers(s: seq<string>, x: string)
    requires Distinct(s)
    ensures Distinct(Splice(s, x))
    ensures forall y :: y in Splice(s, x) <==> y in s && y != x
  {
    var i := Find(s, x);
    if i < |s| {
      DistinctDrop(s, i);
    }
  }

  lemma {:induction false} AppendTwice(s: seq<string>, x: string)
    requires x in s
    ensures !Distinct(s + [x])
  {
    var i :| 0 <= i < |s| && s[i] == x;
    assert (s + [x])[i] == (s + [x])[|s|];
  }

  lemma {:induction false} EnlistIff(index: Index, ends: map<string, string>, node: string, id: string)
    requires Indexes(index, ends)
    ensures Indexes(Enlist(index, node, id), ends[id := node]) <==> id !in ends
  {
    var after := Enlist(index, node, id);
    assert Listed(after, node) == Listed(index, node) + [id];
    if id !in ends {
      forall n
        ensures Distinct(Listed(after, n))
        ensures forall x :: x in Listed(after, n) <==> x in Listed(index, n) || (x == id && n == node)
      {
        assert id !in Listed(index, n);
      }
    } else if ends[id] == node {
      AppendTwice(Listed(index, node), id);
    } else {
      assert id in Listed(index, ends[id]);
      assert id in Listed(after, ends[id]) && ends[id := node][id] == node;
    }
  }

  lemma {:induction false} UnlistIndexes(index: Index, ends: map<string, string>, id: string)
    requires Indexes(index, ends) && id in ends
    ensures Indexes(Unlist(index, ends[id], id), ends - {id})
  {
    var after := Unlist(index, ends[id], id);
    assert id in Listed(index, ends[id]);
    SpliceMembers(Listed(index, ends[id]), id);
    forall n
      ensures Distinct(Listed(after, n))
      ensures forall x :: x in Listed(after, n) <==> x in Listed(index, n) && x != id
    {
      assert n != ends[id] ==> id !in Listed(index, n) && Listed(after, n) == Listed(index, n);
    }
  }

  lemma {:induction false} ListedEdges(g: Graph, n: string, id: string)
    requires Agrees(g)
    ensures id in Listed(g.outgoing, n) <==> id in g.edges && g.edges[id].source == n
    ensures id in Listed(g.incoming, n) <==> id in g.edges && g.edges[id].target == n
  {
    assert id in Listed(g.outgoing, n) <==> id in Sources(g.edges) && Sources(g.edges)[id] == n;
    assert id in Listed(g.incoming, n) <==> id in Targets(g.edges) && Targets(g.edges)[id] == n;
  }

  // ---- What each mutator does, and leaves alone ----------------------------------------------

  lemma {:induction false} AddNodeEffect(g: Graph, n: Node)
    ensures var h := AddNode(g, n);
      && n.id in h.nodes && h.nodes[n.id] == n
      && (forall id :: id != n.id ==> (id in h.nodes <==> id in g.nodes))
      && (forall id :: id != n.id && id in g.nodes ==> h.nodes[id] == g.nodes[id])
      && h.edges == g.edges && h.outgoing == g.outgoing && h.incoming == g.incoming
      && h.changes == g.changes + [NodeAdded(n.id)]
  {
  }

  // Every updated property reads its new value, every other one the value it had.
  lemma {:induction false} UpdateNodeEffect(g: Graph, id: string, properties: Properties)
    ensures var h := UpdateNode(g, id, properties);
      && (id !in g.nodes ==> h == g)
      && (id in g.nodes ==>
            && h.nodes.Keys == g.nodes.Keys
            && (forall n :: n in g.nodes && n != id ==> h.nodes[n] == g.nodes[n])
            && h.nodes[id] == g.nodes[id].(properties := h.nodes[id].properties)
            && h.nodes[id].properties.Keys == g.nodes[id].properties.Keys + properties.Keys
            && (forall k :: k in properties ==> h.nodes[id].properties[k] == properties[k])
            && (forall k :: k in g.nodes[id].properties && k !in properties ==>
                  h.nodes[id].properties[k] == g.nodes[id].properties[k])
            && h.edges == g.edges && h.outgoing == g.outgoing && h.incoming == g.incoming
            && h.changes == g.changes + [NodeUpdated(id)])
  {
  }

  // The id comes last in the two lists of the edge's ends; no other list changes.
  lemma {:induction false} AddEdgeEffect(g: Graph, e: Edge)
    ensures var h := AddEdge(g, e);
      && h.nodes == g.nodes && h.edges.Keys == g.edges.Keys + {e.id} && h.edges[e.id] == e
      && (forall id :: id in g.edges && id != e.id ==> h.edges[id] == g.edges[id])
      && (forall n :: Listed(h.outgoing, n) == Listed(g.outgoing, n) + if n == e.source then [e.id] else [])
      && (forall n :: Listed(h.incoming, n) == Listed(g.incoming, n) + if n == e.target then [e.id] else [])
      && h.changes == g.changes + [EdgeAdded(e.id)]
  {
  }

  // A list without one id, in its order.
  function Except(s: seq<string>, x: string): seq<string> {
    if s == [] then [] else (if s[0] == x then [] else [s[0]]) + Except(s[1..], x)
  }

  lemma {:induction false} SpliceIs(s: seq<string>, x: string)
    requires Distinct(s)
    ensures Splice(s, x) == Except(s, x)
  {
    if s != [] {
      var rest := s[1..];
      SpliceIs(rest, x);
      if s[0] == x {
        NothingExcept(rest, x);
        assert s[..0] + s[1..] == rest;
      } else {
        var i := Find(rest, x);
        assert i < |rest| ==> s[..i + 1] + s[i + 2..] == [s[0]] + (rest[..i] + rest[i + 1..]);
      }
    }
  }

  lemma {:induction false} NothingExcept(s: seq<string>, x: string)
    requires x !in s
    ensures Except(s, x) == s
  {
    if s != [] {
      NothingExcept(s[1..], x);
    }
  }

  // Removing an edge drops its id from every list, and keeps their order.
  lemma {:induction false} RemoveEdgeKeepsOrder(g: Graph, id: string)
    requires Agrees(g)
    ensures var h := RemoveEdge(g, id);
      && h.nodes == g.nodes && h.edges == g.edges - {id}
      && (forall n :: Listed(h.outgoing, n) == Except(Listed(g.outgoing, n), id))
      && (forall n :: Listed(h.incoming, n) == Except(Listed(g.incoming, n), id))
      && h.changes == g.changes + if id in g.edges then [EdgeRemoved(id)] else []
  {
    forall n
      ensures Listed(RemoveEdge(g, id).outgoing, n) == Except(Listed(g.outgoing, n), id)
      ensures Listed(RemoveEdge(g, id).incoming, n) == Except(Listed(g.incoming, n), id)
    {
      RemovedFrom(g.outgoing, Sources(g.edges), id, n);
      RemovedFrom(g.incoming, Targets(g.edges), id, n);
    }
    if id !in g.edges {
      assert g.edges - {id} == g.edges;
    }
  }

  lemma {:induction false} RemovedFrom(index: Index, ends: map<string, string>, id: string, n: string)
    requires Indexes(index, ends)
    ensures id in ends ==> Listed(Unlist(index, ends[id], id), n) == Except(Listed(index, n), id)
    ensures id !in ends ==> Listed(index, n) == Except(Listed(index, n), id)
  {
    SpliceIs(Listed(index, n), id);
    if id !in ends || ends[id] != n {
      assert id !in Listed(index, n);
      NothingExcept(Listed(index, n), id);
    }
  }

  // Adding an edge keeps the indexes in agreement exactly when its id is not in use.
  lemma {:induction false} AddEdgeAgreesIff(g: Graph, e: Edge)
    requires Agrees(g)
    ensures Agrees(AddEdge(g, e)) <==> e.id !in g.edges
  {
    var h := AddEdge(g, e);
    assert Sources(h.edges) == Sources(g.edges)[e.id := e.source];
    assert Targets(h.edges) == Targets(g.edges)[e.id := e.target];
    EnlistIff(g.outgoing, Sources(g.edges), e.source, e.id);
    EnlistIff(g.incoming, Targets(g.edges), e.target, e.id);
  }

  lemma {:induction false} RemoveEdgeAgrees(g: Graph, id: string)
    requires Agrees(g)
    ensures Agrees(RemoveEdge(g, id))
  {
    if id in g.edges {
      var h := RemoveEdge(g, id);
      assert Sources(h.edges) == Sources(g.edges) - {id};
      assert Targets(h.edges) == Targets(g.edges) - {id};
      UnlistIndexes(g.outgoing, Sources(g.edges), id);
      UnlistIndexes(g.incoming, Targets(g.edges), id);
    }
  }

  // Removing a list of ids removes exactly those edges and journals each removal once.
  lemma {:induction false} RemoveEdgesEffect(g: Graph, ids: seq<string>)
    requires Agrees(g)
    ensures var h := RemoveEdges(g, ids);
      && Agrees(h)
      && h.nodes == g.nodes
      && h.edges == g.edges - ToSet(ids)
      && h.changes == g.changes + Removals(g.edges.Keys, ids)
    decreases |ids|
  {
    if ids != [] {
      var g1 := RemoveEdge(g, ids[0]);
      RemoveEdgeAgrees(g, ids[0]);
      RemoveEdgeEffect(g, ids[0]);
      RemoveEdgesEffect(g1, ids[1..]);
      FirstRemoved(g.edges, ids);
      assert (g.changes + Removals(g.edges.Keys, [ids[0]])) + Removals(g1.edges.Keys, ids[1..])
          == g.changes + (Removals(g.edges.Keys, [ids[0]]) + Removals(g1.edges.Keys, ids[1..]));
    }
  }

  lemma {:induction false} RemoveEdgeEffect(g: Graph, id: string)
    ensures var h := RemoveEdge(g, id);
      h.nodes == g.nodes && h.edges == g.edges - {id} && h.changes == g.changes + Removals(g.edges.Keys, [id])
  {
    assert [id][1..] == [];
    if id !in g.edges {
      assert g.edges - {id} == g.edges;
      assert g.changes + [] == g.changes;
    }
  }

  lemma {:induction false} FirstRemoved(edges: map<string, Edge>, ids: seq<string>)
    requires ids != []
    ensures edges - ToSet(ids) == (edges - {ids[0]}) - ToSet(ids[1..])
    ensures Removals(edges.Keys, ids)
         == Removals(edges.Keys, [ids[0]]) + Removals((edges - {ids[0]}).Keys, ids[1..])
  {
    assert ids == [ids[0]] + ids[1..];
    assert [ids[0]][1..] == [];
    assert (edges - {ids[0]}).Keys == edges.Keys - {ids[0]};
    assert Removals(edges.Keys - {ids[0]}, []) == [];
  }

  // One removal entry for each live edge in the list, at its first mention.
  function Removals(live: set<string>, ids: seq<string>): seq<Change> {
    if ids == [] then []
    else
      (if ids[0] in live then [EdgeRemoved(ids[0])] else []) + Removals(live - {ids[0]}, ids[1..])
  }

  ghost predicate Incident(e: Edge, node: string) {
    e.source == node || e.target == node
  }

  // Removing a node removes the edges at it, all of them and no others.
  lemma {:induction false} RemoveNodeEffect(g: Graph, id: string)
    requires Agrees(g) && id in g.nodes
    ensures var h := RemoveNode(g, id);
      && Agrees(h)
      && h.nodes == g.nodes - {id}
      && (forall e :: e in h.edges <==> e in g.edges && !Incident(g.edges[e], id))
      && (forall e :: e in h.edges ==> h.edges[e] == g.edges[e])
      && id !in h.outgoing && id !in h.incoming
  {
    var ids := Listed(g.outgoing, id) + Listed(g.incoming, id);
    RemoveEdgesEffect(g, ids);
    var before := RemoveEdges(g, ids);
    forall e
      ensures e in before.edges <==> e in g.edges && !Incident(g.edges[e], id)
    {
      assert e in ids <==> e in Listed(g.outgoing, id) || e in Listed(g.incoming, id);
      ListedEdges(g, id, e);
    }
    ForgetNode(before.outgoing, Sources(before.edges), id);
    ForgetNode(before.incoming, Targets(before.edges), id);
  }

  // An index without edges at a node does not need the node's list.
  lemma {:induction false} ForgetNode(index: Index, ends: map<string, string>, node: string)
    requires Indexes(index, ends) && forall id :: id in ends ==> ends[id] != node
    ensures Indexes(index - {node}, ends)
  {
    EmptyOrNot(Listed(index, node));
    assert forall x :: x in Listed(index, node) <==> x in ends && ends[x] == node;
    forall n
      ensures Listed(index - {node}, n) == Listed(index, n)
    {
    }
  }

  lemma {:induction false} EmptyOrNot(s: seq<string>)
    ensures s == [] || exists x :: x in s
  {
    if s != [] {
      assert s[0] in s;
    }
  }

  // The journal's removals, one per incident edge: self-loops, listed twice, are removed once.
  lemma {:induction false} RemovalsOnce(live: set<string>, ids: seq<string>)
    ensures forall x :: EdgeRemoved(x) in Removals(live, ids) <==> x in live && x in ids
    ensures forall c :: c in Removals(live, ids) ==> c.EdgeRemoved?
    ensures Distinct(Removals(live, ids))
  {
    if ids != [] {
      RemovalsOnce(live - {ids[0]}, ids[1..]);
    }
  }

  lemma {:induction false} RemoveNodeJournal(g: Graph, id: string)
    requires Agrees(g) && id in g.nodes
    ensures exists removals: seq<Change> ::
      && RemoveNode(g, id).changes == g.changes + removals + [NodeRemoved(id)]
      && Distinct(removals)
      && (forall c :: c in removals <==> c.EdgeRemoved? && c.edgeId in g.edges && Incident(g.edges[c.edgeId], id))
  {
    var ids := Listed(g.outgoing, id) + Listed(g.incoming, id);
    RemoveEdgesEffect(g, ids);
    var removals := Removals(g.edges.Keys, ids);
    RemovalsOnce(g.edges.Keys, ids);
    forall c: Change
      ensures c in removals <==> c.EdgeRemoved? && c.edgeId in g.edges && Incident(g.edges[c.edgeId], id)
    {
      if c.EdgeRemoved? {
        assert c == EdgeRemoved(c.edgeId);
        assert c.edgeId in ids <==> c.edgeId in Listed(g.outgoing, id) || c.edgeId in Listed(g.incoming, id);
        ListedEdges(g, id, c.edgeId);
      }
    }
    assert RemoveNode(g, id).changes == g.changes + removals + [NodeRemoved(id)];
  }

  // ---- Any sequence of mutators ------------------------------------------------------------

  datatype Mutation =
    | PutNode(node: Node)
    | Touch(nodeId: string, properties: Properties)
    | DropNode(nodeId: string)
    | PutEdge(edge: Edge)
    | DropEdge(edgeId: string)
    | Clear

  function Apply(g: Graph, m: Mutation): Graph {
    match m
    case PutNode(n) => AddNode(g, n)
    case Touch(id, properties) => UpdateNode(g, id, properties)
    case DropNode(id) => RemoveNode(g, id)
    case PutEdge(e) => AddEdge(g, e)
    case DropEdge(id) => RemoveEdge(g, id)
    case Clear => EMPTY
  }

  function ApplyAll(g: Graph, ms: seq<Mutation>): Graph
    decreases |ms|
  {
    if ms == [] then g else ApplyAll(Apply(g, ms[0]), ms[1..])
  }

  // Every edge is added under an id that is unused at that moment.
  ghost predicate FreshEdges(g: Graph, ms: seq<Mutation>)
    decreases |ms|
  {
    ms != [] ==> (ms[0].PutEdge? ==> ms[0].edge.id !in g.edges) && FreshEdges(Apply(g, ms[0]), ms[1..])
  }

  lemma {:induction false} ApplyAgrees(g: Graph, m: Mutation)
    requires Agrees(g) && (m.PutEdge? ==> m.edge.id !in g.edges)
    ensures Agrees(Apply(g, m))
  {
    match m {
      case PutNode(_) =>
      case Touch(_, _) =>
      case DropNode(id) => if id in g.nodes { RemoveNodeEffect(g, id); }
      case PutEdge(e) => AddEdgeAgreesIff(g, e);
      case DropEdge(id) => RemoveEdgeAgrees(g, id);
      case Clear =>
    }
  }

  lemma {:induction false} MutationsAgree(g: Graph, ms: seq<Mutation>)
    requires Agrees(g) && FreshEdges(g, ms)
    ensures Agrees(ApplyAll(g, ms))
    decreases |ms|
  {
    if ms != [] {
      ApplyAgrees(g, ms[0]);
      MutationsAgree(Apply(g, ms[0]), ms[1..]);
    }
  }

  // ---- The journal ---------------------------------------------------------------------------

  // The live node and edge ids a journal amounts to.
  function Replay(changes: seq<Change>): (set<string>, set<string>) {
    if changes == [] then ({}, {})
    else
      var n := |changes| - 1;
      var (nodes, edges) := Replay(changes[..n]);
      match changes[n]
      case NodeAdded(id) => (nodes + {id}, edges)
      case NodeUpdated(id) => (nodes, edges)
      case NodeRemoved(id) => (nodes - {id}, edges)
      case EdgeAdded(id) => (nodes, edges + {id})
      case EdgeRemoved(id) => (nodes, edges - {id})
  }

  ghost predicate Journaled(g: Graph) {
    Replay(g.changes) == (g.nodes.Keys, g.edges.Keys)
  }

  lemma {:induction false} ReplayAppend(changes: seq<Change>, c: Change)
    ensures (changes + [c])[..|changes|] == changes
  {
  }

  lemma {:induction false} RemoveEdgeJournaled(g: Graph, id: string)
    requires Journaled(g)
    ensures Journaled(RemoveEdge(g, id)) && RemoveEdge(g, id).nodes == g.nodes
  {
    ReplayAppend(g.changes, EdgeRemoved(id));
  }

  lemma {:induction false} RemoveEdgesJournaled(g: Graph, ids: seq<string>)
    requires Journaled(g)
    ensures Journaled(RemoveEdges(g, ids)) && RemoveEdges(g, ids).nodes == g.nodes
    decreases |ids|
  {
    if ids != [] {
      RemoveEdgeJournaled(g, ids[0]);
      RemoveEdgesJournaled(RemoveEdge(g, ids[0]), ids[1..]);
    }
  }

  lemma {:induction false} AddNodeJournaled(g: Graph, n: Node)
    requires Journaled(g)
    ensures Journaled(AddNode(g, n))
  {
    ReplayAppend(g.changes, NodeAdded(n.id));
    assert AddNode(g, n).nodes.Keys == g.nodes.Keys + {n.id};
  }

  lemma {:induction false} UpdateNodeJournaled(g: Graph, id: string, properties: Properties)
    requires Journaled(g)
    ensures Journaled(UpdateNode(g, id, properties))
  {
    ReplayAppend(g.changes, NodeUpdated(id));
    assert UpdateNode(g, id, properties).nodes.Keys == g.nodes.Keys;
  }

  lemma {:induction false} RemoveNodeJournaled(g: Graph, id: string)
    requires Journaled(g)
    ensures Journaled(RemoveNode(g, id))
  {
    if id in g.nodes {
      var ids := Listed(g.outgoing, id) + Listed(g.incoming, id);
      RemoveEdgesJournaled(g, ids);
      ReplayAppend(RemoveEdges(g, ids).changes, NodeRemoved(id));
    }
  }

  lemma {:induction false} AddEdgeJournaled(g: Graph, e: Edge)
    requires Journaled(g)
    ensures Journaled(AddEdge(g, e))
  {
    ReplayAppend(g.changes, EdgeAdded(e.id));
    assert AddEdge(g, e).edges.Keys == g.edges.Keys + {e.id};
  }

  lemma {:induction false} ApplyJournaled(g: Graph, m: Mutation)
    requires Journaled(g)
    ensures Journaled(Apply(g, m))
  {
    match m {
      case PutNode(n) => AddNodeJournaled(g, n);
      case Touch(id, properties) => UpdateNodeJournaled(g, id, properties);
      case DropNode(id) => RemoveNodeJournaled(g, id);
      case PutEdge(e) => AddEdgeJournaled(g, e);
      case DropEdge(id) => RemoveEdgeJournaled(g, id);
      case Clear =>
        assert EMPTY.nodes.Keys == {} && EMPTY.edges.Keys == {};
    }
  }

  // After any mutators at all, reused edge ids included, replaying the journal gives the live ids.
  lemma {:induction false} JournalReplays(g: Graph, ms: seq<Mutation>)
    requires Journaled(g)
    ensures Journaled(ApplyAll(g, ms))
    decreases |ms|
  {
    if ms != [] {
      ApplyJournaled(g, ms[0]);
      JournalReplays(Apply(g, ms[0]), ms[1..]);
    }
  }
}
