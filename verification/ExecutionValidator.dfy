// The validators the execution side runs on a plan.
module ExecutionValidator {
  import opened Basics
  import opened Graphs
  import opened Plans
  import opened PlanningValidator

  datatype PlanFault = EmptyPlan | WrongStatus(status: PlanStatus) | UnknownStep(stepId: string, dependency: string)

  ghost predicate Executable(plan: Plan) {
    && plan.steps != []
    && (plan.status == PlanValidated || plan.status == PlanReady)
    && DependenciesExist(plan.steps)
  }

  // Everything that keeps a plan from being executed, and nothing else.
  ghost predicate FaultsIn(plan: Plan, faults: seq<PlanFault>) {
    && (EmptyPlan in faults <==> plan.steps == [])
    && (forall status :: WrongStatus(status) in faults <==>
          status == plan.status && plan.status != PlanValidated && plan.status != PlanReady)
    && (forall id, d :: UnknownStep(id, d) in faults <==> RealUnknown(plan.steps, UnknownDependency(id, d)))
  }

  // Despite its comment, this check does not look for cycles.
  method ValidatePlanForExecution(plan: Plan) returns (valid: bool, errors: seq<PlanFault>)
    ensures valid <==> errors == []
    ensures valid <==> Executable(plan)
    ensures FaultsIn(plan, errors)
  {
    errors := [];
    if |plan.steps| == 0 {
      errors := errors + [EmptyPlan];
    }
    if plan.status != PlanValidated && plan.status != PlanReady {
      errors := errors + [WrongStatus(plan.status)];
    }
    var unknown := ValidateDependenciesExist(plan.steps);
    var i := 0;
    ghost var before := errors;
    while i < |unknown|
      invariant i <= |unknown|
      invariant |errors| == |before| + i && before <= errors
      invariant forall f :: f in errors <==>
        f in before || (f.UnknownStep? && UnknownDependency(f.stepId, f.dependency) in unknown[..i])
    {
      assert unknown[i] in unknown;
      assert unknown[..i + 1] == unknown[..i] + [unknown[i]];
      errors := errors + [UnknownStep(unknown[i].stepId, unknown[i].dependency)];
      i := i + 1;
    }
    assert unknown[..i] == unknown;
    valid := |errors| == 0;
  }

  datatype OrderError = UnknownStepDependency(stepId: string, dependency: string) | CircularDependency(stepId: string)

  ghost predicate Closed(stepIds: seq<string>, dependencies: Graph) {
    forall i, d :: 0 <= i < |stepIds| && d in Succ(dependencies, stepIds[i]) ==> d in stepIds
  }

  // The dependencies of the listed steps only.
  ghost function Restrict(dependencies: Graph, stepIds: seq<string>): Graph {
    map k | k in dependencies && k in stepIds :: dependencies[k]
  }

  // What the search knows as long as it has found no cycle.
  ghost predicate OrderInvariant(
    g: Graph, roots: seq<string>, visited: set<string>, inStack: set<string>, path: seq<string>, finished: seq<string>)
  {
    && (forall x :: x in inStack <==> x in path)
    && (forall x :: x in visited <==> x in path || x in finished)
    && (path != [] ==> IsWalk(g, path))
    && (Closed(roots, g) ==> AllIn(path, roots))
    && TopoOrdered(g, finished)
  }

  lemma {:induction false} EnterStep(
    g: Graph, roots: seq<string>, visited: set<string>, inStack: set<string>, path: seq<string>,
    finished: seq<string>, node: string)
    requires OrderInvariant(g, roots, visited, inStack, path, finished)
    requires path != [] ==> node in Succ(g, path[|path| - 1])
    requires Closed(roots, g) ==> node in roots
    ensures OrderInvariant(g, roots, visited + {node}, inStack + {node}, path + [node], finished)
    ensures Closed(roots, g) ==> AllIn(Succ(g, node), roots)
  {
    WalkAppend(g, path, node);
    if Closed(roots, g) {
      var r :| 0 <= r < |roots| && roots[r] == node;
      assert forall d :: d in Succ(g, roots[r]) ==> d in roots;
    }
  }

  lemma {:induction false} LeaveStep(
    g: Graph, roots: seq<string>, visited: set<string>, inStack: set<string>, path: seq<string>,
    finished: seq<string>, node: string)
    requires OrderInvariant(g, roots, visited, inStack + {node}, path + [node], finished)
    requires node !in inStack && (forall x :: x in inStack <==> x in path) && (path != [] ==> IsWalk(g, path))
    requires AllIn(Succ(g, node), finished)
    ensures OrderInvariant(g, roots, visited, inStack, path, finished + [node])
  {
    TopoAppend(g, finished, node);
    assert forall x :: x in path ==> x in path + [node];
  }

  lemma {:induction false} CycleFound(g: Graph, roots: seq<string>, path: seq<string>, node: string)
    requires node in path && IsWalk(g, path) && node in Succ(g, path[|path| - 1])
    ensures IsCycle(g, path[Find(path, node)..] + [node])
    ensures AllIn(path, roots) ==> AllIn(path[Find(path, node)..] + [node], roots)
  {
    CloseCycle(g, path, Find(path, node), node);
  }

  // The state shared by the recursive calls of `hasCycle`, which stops at the first cycle.
  class OrderSearch {
    const dependencies: Graph
    ghost const universe: set<string>
    ghost const roots: seq<string>
    var visited: set<string>
    var inStack: set<string>
    ghost var path: seq<string>
    ghost var finished: seq<string>
    ghost var cycle: seq<string>

    constructor (dependencies: Graph, ghost roots: seq<string>)
      ensures Valid() && fresh(this)
      ensures this.dependencies == dependencies && this.roots == roots && universe == Universe(dependencies, roots)
      ensures path == []
    {
      this.dependencies := dependencies;
      this.roots := roots;
      universe := Universe(dependencies, roots);
      visited, inStack, path, finished, cycle := {}, {}, [], [], [];
    }

    ghost predicate Valid()
      reads this
    {
      && OrderInvariant(dependencies, roots, visited, inStack, path, finished)
      && (forall k, d :: k in dependencies && d in dependencies[k] ==> d in universe)
    }

    // Once a cycle is found the search is over, and the sets are left as they are.
    method HasCycle(node: string) returns (found: bool)
      requires Valid() && node in universe
      requires path != [] ==> node in Succ(dependencies, path[|path| - 1])
      requires Closed(roots, dependencies) ==> node in roots
      modifies this
      ensures found ==> IsCycle(dependencies, cycle) && (Closed(roots, dependencies) ==> AllIn(cycle, roots))
      ensures !found ==> Valid() && path == old(path) && inStack == old(inStack) && old(visited) <= visited
      ensures !found ==> node in finished && AllIn(old(finished), finished)
      decreases universe - visited, 0
    {
      if node in inStack {
        cycle := path[Find(path, node)..] + [node];
        CycleFound(dependencies, roots, path, node);
        return true;
      }
      if node in visited {
        return false;
      }
      EnterStep(dependencies, roots, visited, inStack, path, finished, node);
      visited := visited + {node};
      inStack := inStack + {node};
      path := path + [node];

      found := AnyCycle(Succ(dependencies, node));
      if found {
        return;
      }
      LeaveStep(dependencies, roots, visited, old(inStack), old(path), finished, node);
      inStack := inStack - {node};
      path := path[..|path| - 1];
      finished := finished + [node];
    }

    // The loop over the dependencies of the node being searched.
    method AnyCycle(deps: seq<string>) returns (found: bool)
      requires Valid() && path != [] && deps == Succ(dependencies, path[|path| - 1])
      requires Closed(roots, dependencies) ==> AllIn(deps, roots)
      modifies this
      ensures found ==> IsCycle(dependencies, cycle) && (Closed(roots, dependencies) ==> AllIn(cycle, roots))
      ensures !found ==> Valid() && path == old(path) && inStack == old(inStack) && old(visited) <= visited
      ensures !found ==> AllIn(deps, finished) && AllIn(old(finished), finished)
      decreases universe - visited, 1
    {
      var i := 0;
      while i < |deps|
        invariant i <= |deps|
        invariant Valid() && path == old(path) && inStack == old(inStack) && old(visited) <= visited
        invariant AllIn(old(finished), finished) && AllIn(deps[..i], finished)
      {
        found := HasCycle(deps[i]);
        if found {
          return true;
        }
        assert deps[..i + 1] == deps[..i] + [deps[i]];
        i := i + 1;
      }
      assert deps[..i] == deps;
      return false;
    }
  }

  // One of these steps depends on something that is not listed.
  ghost predicate UnlistedBy(steps: seq<string>, stepIds: seq<string>, dependencies: Graph, e: OrderError) {
    && e.UnknownStepDependency? && e.stepId in steps
    && e.dependency in Succ(dependencies, e.stepId) && e.dependency !in stepIds
  }

  method ValidateListed(stepIds: seq<string>, dependencies: Graph) returns (errors: seq<OrderError>)
    ensures errors == [] <==> Closed(stepIds, dependencies)
    ensures forall e :: e in errors <==> UnlistedBy(stepIds, stepIds, dependencies, e)
  {
    errors := [];
    var n := 0;
    while n < |stepIds|
      invariant n <= |stepIds|
      invariant forall e :: e in errors <==> UnlistedBy(stepIds[..n], stepIds, dependencies, e)
    {
      ghost var before := errors;
      var deps := Succ(dependencies, stepIds[n]);
      var m := 0;
      while m < |deps|
        invariant m <= |deps|
        invariant forall e :: e in errors <==>
          || e in before
          || (e.UnknownStepDependency? && e.stepId == stepIds[n] && e.dependency in deps[..m]
              && e.dependency !in stepIds)
      {
        assert deps[..m + 1] == deps[..m] + [deps[m]];
        if deps[m] !in stepIds {
          errors := errors + [UnknownStepDependency(stepIds[n], deps[m])];
        }
        m := m + 1;
      }
      assert deps[..m] == deps;
      assert stepIds[..n + 1] == stepIds[..n] + [stepIds[n]];
      n := n + 1;
    }
    assert stepIds[..n] == stepIds;
    NoneUnlisted(stepIds, dependencies, errors);
  }

  lemma {:induction false} NoneUnlisted(stepIds: seq<string>, dependencies: Graph, errors: seq<OrderError>)
    requires forall e :: e in errors <==> UnlistedBy(stepIds, stepIds, dependencies, e)
    ensures errors == [] <==> Closed(stepIds, dependencies)
  {
    if errors != [] {
      assert errors[0] in errors;
    }
    if i, d :| 0 <= i < |stepIds| && d in Succ(dependencies, stepIds[i]) && d !in stepIds {
      assert UnknownStepDependency(stepIds[i], d) in errors;
    }
  }

  // The first listed step from which a cycle is found, if any.
  method FirstCircular(stepIds: seq<string>, dependencies: Graph) returns (n: nat)
    ensures n <= |stepIds|
    ensures n < |stepIds| ==> !Acyclic(dependencies)
    ensures n < |stepIds| && Closed(stepIds, dependencies) ==> !Acyclic(Restrict(dependencies, stepIds))
    ensures n == |stepIds| ==> Acyclic(Restrict(dependencies, stepIds))
  {
    var search := new OrderSearch(dependencies, stepIds);
    n := 0;
    while n < |stepIds|
      invariant n <= |stepIds|
      invariant search.Valid() && search.path == []
      invariant forall i :: 0 <= i < n ==> stepIds[i] in search.finished
    {
      var found := search.HasCycle(stepIds[n]);
      if found {
        if Closed(stepIds, dependencies) {
          CycleRestricts(dependencies, stepIds, search.cycle);
        }
        return;
      }
      n := n + 1;
    }
    RestrictTopo(dependencies, stepIds, search.finished);
  }

  // Accepted exactly when every dependency is a listed step and the listed steps' dependencies have no cycle.
  method ValidateStepOrdering(stepIds: seq<string>, dependencies: Graph) returns (valid: bool, errors: seq<OrderError>)
    ensures valid <==> errors == []
    ensures valid <==> Closed(stepIds, dependencies) && Acyclic(Restrict(dependencies, stepIds))
    ensures forall e :: e in errors && !e.CircularDependency? <==> UnlistedBy(stepIds, stepIds, dependencies, e)
    // A cycle is reported once, at a listed step, and only if there is one.
    ensures forall id :: CircularDependency(id) in errors ==> id in stepIds && !Acyclic(dependencies)
    ensures (forall e :: e in errors ==> !e.CircularDependency?) ==> Acyclic(Restrict(dependencies, stepIds))
    ensures forall i :: 0 <= i < |errors| - 1 ==> !errors[i].CircularDependency?
  {
    errors := ValidateListed(stepIds, dependencies);
    var n := FirstCircular(stepIds, dependencies);
    if n < |stepIds| {
      errors := errors + [CircularDependency(stepIds[n])];
      assert errors[|errors| - 1].CircularDependency?;
    }
    valid := |errors| == 0;
  }

  lemma {:induction false} CycleRestricts(dependencies: Graph, stepIds: seq<string>, cycle: seq<string>)
    requires IsCycle(dependencies, cycle) && forall x :: x in cycle ==> x in stepIds
    ensures !Acyclic(Restrict(dependencies, stepIds))
  {
    var g := Restrict(dependencies, stepIds);
    forall i | 0 <= i < |cycle| - 1
      ensures cycle[i + 1] in Succ(g, cycle[i])
    {
      assert cycle[i] in cycle;
    }
    assert IsCycle(g, cycle);
  }

  lemma {:induction false} RestrictTopo(dependencies: Graph, stepIds: seq<string>, order: seq<string>)
    requires TopoOrdered(dependencies, order) && forall i :: 0 <= i < |stepIds| ==> stepIds[i] in order
    ensures Acyclic(Restrict(dependencies, stepIds))
  {
    var g := Restrict(dependencies, stepIds);
    assert TopoOrdered(g, order);
    TopoOrderedAcyclic(g, order);
  }

  // On a plan's own graph the early-exit search accepts exactly what the planner's two validators accept together.
  lemma {:induction false} SameVerdict(steps: seq<PlanStep>)
    requires Distinct(Ids(steps))
    ensures Closed(Ids(steps), Adjacency(steps)) && Acyclic(Restrict(Adjacency(steps), Ids(steps)))
        <==> DependenciesExist(steps) && Acyclic(Adjacency(steps))
  {
    var g := Adjacency(steps);
    forall k
      ensures k in g <==> k in Ids(steps)
    {
      AdjacencyKeys(steps, k);
    }
    assert Restrict(g, Ids(steps)) == g;
    forall i | 0 <= i < |steps|
      ensures Succ(g, Ids(steps)[i]) == steps[i].dependsOn
    {
      AdjacencyDistinct(steps, i);
    }
  }
}
