// Dependency graphs: cycles, and the orders that rule them out.
module Graphs {
  import opened Basics

  // The nodes a node depends on.  A node without an entry depends on nothing.
  type Graph = map<string, seq<string>>

  function Succ(g: Graph, n: string): seq<string> {
    if n in g then g[n] else []
  }

  ghost predicate IsWalk(g: Graph, p: seq<string>) {
    && |p| > 0
    && forall i :: 0 <= i < |p| - 1 ==> p[i + 1] in Succ(g, p[i])
  }

  // A walk along at least one edge that ends where it started.
  ghost predicate IsCycle(g: Graph, p: seq<string>) {
    |p| >= 2 && IsWalk(g, p) && p[0] == p[|p| - 1]
  }

  ghost predicate Acyclic(g: Graph) {
    forall p :: !IsCycle(g, p)
  }

  // Every dependency of a listed node is listed before it.
  ghost predicate TopoOrdered(g: Graph, order: seq<string>) {
    forall i, d :: 0 <= i < |order| && d in Succ(g, order[i]) ==> d in order[..i]
  }

  // `Build` keeps the last entry given for a key, as a map filled in list order does.
  function Build(entries: seq<(string, seq<string>)>): Graph {
    if entries == [] then map[]
    else
      var n := |entries| - 1;
      Build(entries[..n])[entries[n].0 := entries[n].1]
  }

  function Names(entries: seq<(string, seq<string>)>): seq<string> {
    Map(entries, (e: (string, seq<string>)) => e.0)
  }

  lemma {:induction false} BuildKeys(entries: seq<(string, seq<string>)>, k: string)
    ensures k in Build(entries) <==> k in Names(entries)
  {
    if entries != [] {
      var n := |entries| - 1;
      BuildKeys(entries[..n], k);
      assert Names(entries) == Names(entries[..n]) + [entries[n].0];
    }
  }

  // With distinct keys the map holds every entry.
  lemma {:induction false} BuildDistinct(entries: seq<(string, seq<string>)>, i: nat)
    requires Distinct(Names(entries)) && i < |entries|
    ensures entries[i].0 in Build(entries) && Build(entries)[entries[i].0] == entries[i].1
  {
    var n := |entries| - 1;
    if i < n {
      assert Names(entries)[i] != Names(entries)[n];
      assert Names(entries[..n]) == Names(entries)[..n];
      BuildDistinct(entries[..n], i);
    }
  }

  lemma {:induction false} FindDescends(g: Graph, order: seq<string>, n: string, d: string)
    requires TopoOrdered(g, order) && n in order && d in Succ(g, n)
    ensures d in order && Find(order, d) < Find(order, n)
  {
    var i := Find(order, n);
    assert d in order[..i];
    var j :| 0 <= j < i && order[j] == d;
  }

  lemma {:induction false} WalkDescends(g: Graph, order: seq<string>, p: seq<string>, k: nat)
    requires TopoOrdered(g, order) && IsWalk(g, p) && p[0] in order && k < |p|
    ensures p[k] in order && Find(order, p[k]) + k <= Find(order, p[0])
  {
    if k > 0 {
      WalkDescends(g, order, p, k - 1);
      assert p[(k - 1) + 1] in Succ(g, p[k - 1]);
      FindDescends(g, order, p[k - 1], p[k]);
    }
  }

  // No cycle passes through a node of a topological order.
  lemma {:induction false} TopoHasNoCycle(g: Graph, order: seq<string>, p: seq<string>)
    requires TopoOrdered(g, order) && IsCycle(g, p)
    ensures p[0] !in order
  {
    if p[0] in order {
      WalkDescends(g, order, p, |p| - 1);
    }
  }

  // A topological order of all nodes with entries shows the graph acyclic.
  lemma {:induction false} TopoOrderedAcyclic(g: Graph, order: seq<string>)
    requires TopoOrdered(g, order) && forall k :: k in g ==> k in order
    ensures Acyclic(g)
  {
    forall p | IsCycle(g, p)
      ensures false
    {
      assert p[0 + 1] in Succ(g, p[0]);
      TopoHasNoCycle(g, order, p);
    }
  }

  lemma {:induction false} TopoAppend(g: Graph, order: seq<string>, n: string)
    requires TopoOrdered(g, order) && forall d :: d in Succ(g, n) ==> d in order
    ensures TopoOrdered(g, order + [n])
  {
    var after := order + [n];
    forall i, d | 0 <= i < |after| && d in Succ(g, after[i])
      ensures d in after[..i]
    {
      if i < |order| {
        assert after[..i] == order[..i];
        assert after[i] == order[i];
      } else {
        assert after[..i] == order;
      }
    }
  }

  // An entry given twice counts as it was given last.
  lemma {:induction false} LastEntryWins(entries: seq<(string, seq<string>)>, i: nat)
    requires i < |entries| && forall j :: i < j < |entries| ==> entries[j].0 != entries[i].0
    ensures entries[i].0 in Build(entries) && Build(entries)[entries[i].0] == entries[i].1
  {
    var n := |entries| - 1;
    if i < n {
      assert entries[..n][i] == entries[i];
      LastEntryWins(entries[..n], i);
    }
  }

  // Everything a graph mentions.
  ghost function Universe(g: Graph, roots: seq<string>): set<string> {
    g.Keys + ToSet(roots) + (set k, d | k in g && d in g[k] :: d)
  }

  // The part of a walk from a node back to itself, closed by one more edge.
  lemma {:induction false} CloseCycle(g: Graph, path: seq<string>, i: nat, n: string)
    requires IsWalk(g, path) && i < |path| && path[i] == n
    requires n in Succ(g, path[|path| - 1])
    ensures IsCycle(g, path[i..] + [n])
  {
    var c := path[i..] + [n];
    forall j | 0 <= j < |c| - 1
      ensures c[j + 1] in Succ(g, c[j])
    {
      if j < |c| - 2 {
        assert path[(i + j) + 1] in Succ(g, path[i + j]);
      }
    }
  }

  lemma {:induction false} WalkAppend(g: Graph, path: seq<string>, n: string)
    requires path != [] ==> IsWalk(g, path) && n in Succ(g, path[|path| - 1])
    ensures IsWalk(g, path + [n])
  {
    var p := path + [n];
    forall i | 0 <= i < |p| - 1
      ensures p[i + 1] in Succ(g, p[i])
    {
      if i < |path| - 1 {
        assert path[i + 1] in Succ(g, path[i]);
      }
    }
  }
}
