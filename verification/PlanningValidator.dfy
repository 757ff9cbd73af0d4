// The planner's validators.
module PlanningValidator {
  import opened Basics
  import opened Graphs
  import opened Plans

  datatype Field = IdField | TitleField | DescriptionField | ExpectedResultField

  datatype PlanError =
    | NoSteps
    | MissingField(stepId: string, field: Field)
    | DuplicateId(id: string)
    | UnknownDependency(stepId: string, dependency: string)
    | Cycle(path: seq<string>)
    | UnknownTool(stepId: string, tool: string)

  function Entries(steps: seq<PlanStep>): (entries: seq<(string, seq<string>)>)
    ensures |entries| == |steps|
  {
    Map(steps, (s: PlanStep) => (s.id, s.dependsOn))
  }

  // The dependsOn graph; a repeated id keeps its last dependencies.
  function Adjacency(steps: seq<PlanStep>): Graph {
    Build(Entries(steps))
  }

  lemma {:induction false} AdjacencyKeys(steps: seq<PlanStep>, k: string)
    ensures k in Adjacency(steps) <==> k in Ids(steps)
  {
    BuildKeys(Entries(steps), k);
    assert Names(Entries(steps)) == Ids(steps);
  }

  // With distinct ids the graph is the plan's own: each step's dependencies, nothing else.
  lemma {:induction false} AdjacencyDistinct(steps: seq<PlanStep>, i: nat)
    requires Distinct(Ids(steps)) && i < |steps|
    ensures Succ(Adjacency(steps), steps[i].id) == steps[i].dependsOn
  {
    assert Names(Entries(steps)) == Ids(steps);
    BuildDistinct(Entries(steps), i);
  }

  // ---- Cycle detection -------------------------------------------------------------

  // What the search knows: the nodes on the path are on the stack, the others seen so far are finished.
  ghost predicate SearchInvariant(
    g: Graph, visited: set<string>, inStack: set<string>, path: seq<string>, errors: seq<PlanError>,
    finished: seq<string>)
  {
    && (forall x :: x in inStack <==> x in path)
    && (forall x :: x in visited <==> x in path || x in finished)
    && (path != [] ==> IsWalk(g, path))
    && (forall e :: e in errors ==> e.Cycle? && IsCycle(g, e.path))
    && (errors == [] ==> TopoOrdered(g, finished))
  }

  ghost predicate AllIn(nodes: seq<string>, finished: seq<string>) {
    forall x :: x in nodes ==> x in finished
  }

  lemma {:induction false} EnterNode(
    g: Graph, visited: set<string>, inStack: set<string>, path: seq<string>, errors: seq<PlanError>,
    finished: seq<string>, node: string)
    requires SearchInvariant(g, visited, inStack, path, errors, finished)
    requires path != [] ==> node in Succ(g, path[|path| - 1])
    ensures SearchInvariant(g, visited + {node}, inStack + {node}, path + [node], errors, finished)
  {
    WalkAppend(g, path, node);
  }

  lemma {:induction false} LeaveNode(
    g: Graph, visited: set<string>, inStack: set<string>, path: seq<string>, errors: seq<PlanError>,
    finished: seq<string>, node: string)
    requires SearchInvariant(g, visited, inStack + {node}, path + [node], errors, finished)
    requires node !in inStack && (forall x :: x in inStack <==> x in path) && (path != [] ==> IsWalk(g, path))
    requires errors == [] ==> AllIn(Succ(g, node), finished)
    ensures SearchInvariant(g, visited, inStack, path, errors, finished + [node])
  {
    if errors == [] {
      TopoAppend(g, finished, node);
    }
  }

  // The state shared by the recursive calls of the search.
  class CycleSearch {
    const adjacency: Graph
    ghost const universe: set<string>
    var visited: set<string>
    var inStack: set<string>
    var path: seq<string>
    var errors: seq<PlanError>
    ghost var finished: seq<string>

    constructor (adjacency: Graph, ghost roots: seq<string>)
      ensures Valid() && fresh(this)
      ensures this.adjacency == adjacency && universe == Universe(adjacency, roots)
      ensures path == [] && errors == [] && finished == [] && visited == {}
    {
      this.adjacency := adjacency;
      universe := Universe(adjacency, roots);
      visited, inStack, path, errors, finished := {}, {}, [], [], [];
    }

    ghost predicate Valid()
      reads this
    {
      && SearchInvariant(adjacency, visited, inStack, path, errors, finished)
      && (forall k, d :: k in adjacency && d in adjacency[k] ==> d in universe)
    }

    method Dfs(node: string) returns (onCycle: bool)
      requires Valid() && node in universe
      requires path != [] ==> node in Succ(adjacency, path[|path| - 1])
      modifies this
      ensures Valid()
      ensures path == old(path) && inStack == old(inStack)
      ensures old(visited) <= visited && old(errors) <= errors
      ensures AllIn(old(finished), finished)
      ensures errors == [] ==> node in finished
      decreases universe - visited, 0
    {
      if node in inStack {
        var cycleStart := Find(path, node);
        CloseCycle(adjacency, path, cycleStart, node);
        errors := errors + [Cycle(path[cycleStart..] + [node])];
        return true;
      }
      if node in visited {
        return false;
      }
      EnterNode(adjacency, visited, inStack, path, errors, finished, node);
      visited := visited + {node};
      inStack := inStack + {node};
      path := path + [node];

      DfsAll(Succ(adjacency, node));
      LeaveNode(adjacency, visited, old(inStack), old(path), errors, finished, node);
      path := path[..|path| - 1];
      inStack := inStack - {node};
      finished := finished + [node];
      return false;
    }

    // The loop over the neighbours of the node being searched.
    method DfsAll(neighbors: seq<string>)
      requires Valid() && path != [] && neighbors == Succ(adjacency, path[|path| - 1])
      modifies this
      ensures Valid() && path == old(path) && inStack == old(inStack)
      ensures old(visited) <= visited && old(errors) <= errors
      ensures AllIn(old(finished), finished)
      ensures errors == [] ==> AllIn(neighbors, finished)
      decreases universe - visited, 1
    {
      var i := 0;
      while i < |neighbors|
        invariant i <= |neighbors|
        invariant Valid() && path == old(path) && inStack == old(inStack)
        invariant old(visited) <= visited && old(errors) <= errors
        invariant AllIn(old(finished), finished)
        invariant errors == [] ==> AllIn(neighbors[..i], finished)
      {
        var closed := Dfs(neighbors[i]);
        assert neighbors[..i + 1] == neighbors[..i] + [neighbors[i]];
        i := i + 1;
      }
      assert neighbors[..i] == neighbors;
    }
  }

  // No errors exactly for an acyclic dependency graph, and every reported cycle is one.
  method ValidateNoCycles(steps: seq<PlanStep>) returns (errors: seq<PlanError>)
    ensures errors == [] <==> Acyclic(Adjacency(steps))
    ensures forall e :: e in errors ==> e.Cycle? && IsCycle(Adjacency(steps), e.path)
  {
    var search := new CycleSearch(Adjacency(steps), Ids(steps));
    var i := 0;
    while i < |steps|
      invariant i <= |steps|
      invariant search.Valid() && search.path == []
      invariant search.errors == [] ==> forall j :: 0 <= j < i ==> steps[j].id in search.finished
    {
      if steps[i].id !in search.visited {
        assert steps[i].id == Ids(steps)[i];
        var closed := search.Dfs(steps[i].id);
      }
      i := i + 1;
    }
    errors := search.errors;
    if errors == [] {
      forall k | k in Adjacency(steps)
        ensures k in search.finished
      {
        AdjacencyKeys(steps, k);
      }
      TopoOrderedAcyclic(Adjacency(steps), search.finished);
    } else {
      assert errors[0] in errors;
    }
  }

  // ---- The other validators ------------------------------------------------------------

  ghost predicate RealDuplicate(steps: seq<PlanStep>, e: PlanError) {
    e.DuplicateId? && exists i, j :: 0 <= i < j < |steps| && steps[i].id == e.id && steps[j].id == e.id
  }

  // Every repetition of an id is reported, and nothing else.
  method ValidateNoDuplicateIds(steps: seq<PlanStep>) returns (errors: seq<PlanError>)
    ensures errors == [] <==> Distinct(Ids(steps))
    ensures forall e :: e in errors <==> RealDuplicate(steps, e)
    ensures |errors| == |steps| - |ToSet(Ids(steps))|
  {
    var seen: set<string> := {};
    errors := [];
    var n := 0;
    while n < |steps|
      invariant n <= |steps|
      invariant DuplicatesSoFar(steps, n, seen, errors)
    {
      DuplicatesStep(steps, n, seen, errors);
      if steps[n].id in seen {
        errors := errors + [DuplicateId(steps[n].id)];
      }
      seen := seen + {steps[n].id};
      n := n + 1;
    }
    assert steps[..n] == steps && Ids(steps)[..n] == Ids(steps);
    NoDuplicates(steps, errors);
  }

  // The repetitions among the first n steps have been reported.
  ghost predicate DuplicatesSoFar(steps: seq<PlanStep>, n: nat, seen: set<string>, errors: seq<PlanError>)
    requires n <= |steps|
  {
    && seen == ToSet(Ids(steps)[..n])
    && (forall e :: e in errors <==> RealDuplicate(steps[..n], e))
    && |errors| == n - |seen|
  }

  lemma {:induction false} DuplicatesStep(steps: seq<PlanStep>, n: nat, seen: set<string>, errors: seq<PlanError>)
    requires n < |steps| && DuplicatesSoFar(steps, n, seen, errors)
    ensures var id := steps[n].id;
      DuplicatesSoFar(steps, n + 1, seen + {id}, errors + if id in seen then [DuplicateId(id)] else [])
  {
    DuplicateNext(steps, n);
    if steps[n].id in seen {
      assert seen + {steps[n].id} == seen;
    }
  }

  lemma {:induction false} DuplicateNext(steps: seq<PlanStep>, n: nat)
    requires n < |steps|
    ensures forall e :: RealDuplicate(steps[..n + 1], e) <==>
      RealDuplicate(steps[..n], e) || (e == DuplicateId(steps[n].id) && steps[n].id in Ids(steps)[..n])
    ensures ToSet(Ids(steps)[..n + 1]) == ToSet(Ids(steps)[..n]) + {steps[n].id}
  {
    assert Ids(steps)[..n + 1] == Ids(steps)[..n] + [steps[n].id];
    assert steps[..n + 1] == steps[..n] + [steps[n]];
    forall e
      ensures RealDuplicate(steps[..n + 1], e) <==>
        RealDuplicate(steps[..n], e) || (e == DuplicateId(steps[n].id) && steps[n].id in Ids(steps)[..n])
    {
      assert Ids(steps[..n]) == Ids(steps)[..n];
      DuplicateAppend(steps[..n], steps[n], e);
    }
  }

  lemma {:induction false} DuplicateAppend(steps: seq<PlanStep>, s: PlanStep, e: PlanError)
    ensures RealDuplicate(steps + [s], e) <==>
      RealDuplicate(steps, e) || (e == DuplicateId(s.id) && s.id in Ids(steps))
  {
    var n, after := |steps|, steps + [s];
    if e == DuplicateId(s.id) && s.id in Ids(steps) {
      var i :| 0 <= i < n && Ids(steps)[i] == s.id;
      assert after[i].id == e.id && after[n].id == e.id;
    }
    if RealDuplicate(after, e) {
      var i, j :| 0 <= i < j <= n && after[i].id == e.id && after[j].id == e.id;
      assert Ids(steps)[i] == e.id;
      assert j < n ==> steps[i].id == e.id && steps[j].id == e.id;
    }
    if RealDuplicate(steps, e) {
      var i, j :| 0 <= i < j < n && steps[i].id == e.id && steps[j].id == e.id;
      assert after[i].id == e.id && after[j].id == e.id;
    }
  }

  lemma {:induction false} NoDuplicates(steps: seq<PlanStep>, errors: seq<PlanError>)
    requires forall e :: e in errors <==> RealDuplicate(steps, e)
    ensures errors == [] <==> Distinct(Ids(steps))
  {
    if errors != [] {
      assert errors[0] in errors;
    }
    if i, j :| 0 <= i < j < |steps| && Ids(steps)[i] == Ids(steps)[j] {
      assert steps[i].id == steps[j].id;
      assert DuplicateId(steps[i].id) in errors;
    }
  }

  ghost predicate DependenciesExist(steps: seq<PlanStep>) {
    forall i, d :: 0 <= i < |steps| && d in steps[i].dependsOn ==> d in Ids(steps)
  }

  ghost predicate RealUnknown(steps: seq<PlanStep>, e: PlanError) {
    UnknownAmong(steps, Ids(steps), e)
  }

  // One of these steps names a dependency that has none of the ids.
  ghost predicate UnknownAmong(steps: seq<PlanStep>, ids: seq<string>, e: PlanError) {
    e.UnknownDependency? && e.dependency !in ids && exists s :: s in steps && NamedBy(s, e.stepId, e.dependency)
  }

  ghost predicate NamedBy(s: PlanStep, stepId: string, dependency: string) {
    s.id == stepId && dependency in s.dependsOn
  }

  method ValidateDependenciesExist(steps: seq<PlanStep>) returns (errors: seq<PlanError>)
    ensures errors == [] <==> DependenciesExist(steps)
    ensures forall e :: e in errors <==> RealUnknown(steps, e)
  {
    var ids := ToSet(Ids(steps));
    errors := [];
    var n := 0;
    while n < |steps|
      invariant n <= |steps|
      invariant forall e :: e in errors <==> UnknownAmong(steps[..n], Ids(steps), e)
    {
      var step := steps[n];
      ghost var before := errors;
      var m := 0;
      while m < |step.dependsOn|
        invariant m <= |step.dependsOn|
        invariant forall e :: e in errors <==>
          || e in before
          || (e.UnknownDependency? && e.stepId == step.id && e.dependency !in Ids(steps)
              && e.dependency in step.dependsOn[..m])
      {
        assert step.dependsOn[..m + 1] == step.dependsOn[..m] + [step.dependsOn[m]];
        if step.dependsOn[m] !in ids {
          errors := errors + [UnknownDependency(step.id, step.dependsOn[m])];
        }
        m := m + 1;
      }
      assert step.dependsOn[..m] == step.dependsOn;
      UnknownNext(steps, n);
      n := n + 1;
    }
    assert steps[..n] == steps;
    UnknownNone(steps, errors);
  }

  lemma {:induction false} UnknownNext(steps: seq<PlanStep>, n: nat)
    requires n < |steps|
    ensures forall e :: UnknownAmong(steps[..n + 1], Ids(steps), e) <==>
      || UnknownAmong(steps[..n], Ids(steps), e)
      || (e.UnknownDependency? && e.stepId == steps[n].id && e.dependency !in Ids(steps)
          && e.dependency in steps[n].dependsOn)
  {
    assert steps[..n + 1] == steps[..n] + [steps[n]];
    forall e
      ensures UnknownAmong(steps[..n + 1], Ids(steps), e) <==>
        || UnknownAmong(steps[..n], Ids(steps), e)
        || (e.UnknownDependency? && e.stepId == steps[n].id && e.dependency !in Ids(steps)
            && e.dependency in steps[n].dependsOn)
    {
      if UnknownAmong(steps[..n], Ids(steps), e) {
        var s :| s in steps[..n] && NamedBy(s, e.stepId, e.dependency);
        assert s in steps[..n + 1];
      }
      if e.UnknownDependency? && e.stepId == steps[n].id && e.dependency in steps[n].dependsOn {
        assert NamedBy(steps[n], e.stepId, e.dependency) && steps[n] in steps[..n + 1];
      }
    }
  }

  lemma {:induction false} UnknownNone(steps: seq<PlanStep>, errors: seq<PlanError>)
    requires forall e :: e in errors <==> RealUnknown(steps, e)
    ensures errors == [] <==> DependenciesExist(steps)
  {
    if errors != [] {
      assert errors[0] in errors;
      var s :| s in steps && NamedBy(s, errors[0].stepId, errors[0].dependency);
      var i :| 0 <= i < |steps| && steps[i] == s;
    }
    if i, d :| 0 <= i < |steps| && d in steps[i].dependsOn && d !in Ids(steps) {
      assert NamedBy(steps[i], steps[i].id, d) && steps[i] in steps;
      assert UnknownDependency(steps[i].id, d) in errors;
    }
  }

  ghost predicate FieldsPresent(s: PlanStep) {
    s.id != "" && s.title != "" && s.description != "" && s.expectedResult != ""
  }

  ghost predicate FieldEmpty(s: PlanStep, field: Field) {
    match field
    case IdField => s.id == ""
    case TitleField => s.title == ""
    case DescriptionField => s.description == ""
    case ExpectedResultField => s.expectedResult == ""
  }

  ghost predicate RealMissing(steps: seq<PlanStep>, e: PlanError) {
    e.MissingField? && exists s :: s in steps && s.id == e.stepId && FieldEmpty(s, e.field)
  }

  method MissingFields(s: PlanStep) returns (errors: seq<PlanError>)
    ensures errors == [] <==> FieldsPresent(s)
    ensures forall e :: e in errors <==> e.MissingField? && e.stepId == s.id && FieldEmpty(s, e.field)
  {
    errors := [];
    if s.id == "" {
      errors := errors + [MissingField(s.id, IdField)];
    }
    if s.title == "" {
      errors := errors + [MissingField(s.id, TitleField)];
    }
    if s.description == "" {
      errors := errors + [MissingField(s.id, DescriptionField)];
    }
    if s.expectedResult == "" {
      errors := errors + [MissingField(s.id, ExpectedResultField)];
    }
    forall field | FieldEmpty(s, field)
      ensures MissingField(s.id, field) in errors
    {
      match field
      case IdField =>
      case TitleField =>
      case DescriptionField =>
      case ExpectedResultField =>
    }
  }

  method ValidateStepFields(steps: seq<PlanStep>) returns (errors: seq<PlanError>)
    ensures errors == [] <==> forall s :: s in steps ==> FieldsPresent(s)
    ensures forall e :: e in errors <==> RealMissing(steps, e)
  {
    errors := [];
    var n := 0;
    while n < |steps|
      invariant n <= |steps|
      invariant errors == [] <==> forall i :: 0 <= i < n ==> FieldsPresent(steps[i])
      invariant forall e :: e in errors <==> RealMissing(steps[..n], e)
    {
      var own := MissingFields(steps[n]);
      assert steps[..n + 1] == steps[..n] + [steps[n]];
      errors := errors + own;
      n := n + 1;
    }
    assert steps[..n] == steps;
  }

  // An empty tool id is treated like no tool at all.
  ghost predicate ToolKnown(s: PlanStep, toolIds: seq<string>) {
    s.tool.Some? && s.tool.value != "" ==> s.tool.value in toolIds
  }

  ghost predicate RealUnknownTool(steps: seq<PlanStep>, toolIds: seq<string>, e: PlanError) {
    && e.UnknownTool? && e.tool != "" && e.tool !in toolIds
    && exists s :: s in steps && s.id == e.stepId && s.tool == Some(e.tool)
  }

  method ValidateToolsExist(steps: seq<PlanStep>, toolIds: seq<string>) returns (errors: seq<PlanError>)
    ensures errors == [] <==> forall s :: s in steps ==> ToolKnown(s, toolIds)
    ensures forall e :: e in errors <==> RealUnknownTool(steps, toolIds, e)
  {
    errors := [];
    var n := 0;
    while n < |steps|
      invariant n <= |steps|
      invariant errors == [] <==> forall i :: 0 <= i < n ==> ToolKnown(steps[i], toolIds)
      invariant forall e :: e in errors <==> RealUnknownTool(steps[..n], toolIds, e)
    {
      var s := steps[n];
      assert steps[..n + 1] == steps[..n] + [s];
      if s.tool.Some? && s.tool.value != "" && s.tool.value !in toolIds {
        errors := errors + [UnknownTool(s.id, s.tool.value)];
      }
      n := n + 1;
    }
    assert steps[..n] == steps;
  }

  // What a structurally sound plan is.
  ghost predicate WellFormed(steps: seq<PlanStep>, toolIds: seq<string>) {
    && steps != []
    && (forall s :: s in steps ==> FieldsPresent(s) && ToolKnown(s, toolIds))
    && Distinct(Ids(steps))
    && DependenciesExist(steps)
    && Acyclic(Adjacency(steps))
  }

  ghost predicate RealError(steps: seq<PlanStep>, toolIds: seq<string>, e: PlanError) {
    match e
    case NoSteps => steps == []
    case MissingField(_, _) => RealMissing(steps, e)
    case DuplicateId(_) => RealDuplicate(steps, e)
    case UnknownDependency(_, _) => RealUnknown(steps, e)
    case Cycle(path) => IsCycle(Adjacency(steps), path)
    case UnknownTool(_, _) => RealUnknownTool(steps, toolIds, e)
  }

  method ValidatePlan(plan: Plan, toolIds: seq<string>) returns (valid: bool, errors: seq<PlanError>)
    ensures valid <==> errors == []
    ensures valid <==> WellFormed(plan.steps, toolIds)
    // Whatever is wrong with the plan is reported, and nothing else; of several cycles not all need be.
    ensures forall e :: e in errors ==> RealError(plan.steps, toolIds, e)
    ensures forall e :: RealError(plan.steps, toolIds, e) && !e.Cycle? ==> e in errors
    ensures (exists e :: e in errors && e.Cycle?) <==> !Acyclic(Adjacency(plan.steps))
  {
    errors := if |plan.steps| == 0 then [NoSteps] else [];
    var fields := ValidateStepFields(plan.steps);
    var duplicates := ValidateNoDuplicateIds(plan.steps);
    var dependencies := ValidateDependenciesExist(plan.steps);
    var cycles := ValidateNoCycles(plan.steps);
    var tools := ValidateToolsExist(plan.steps, toolIds);
    if |cycles| > 0 {
      assert cycles[0] in cycles;
    }
    errors := errors + fields + duplicates + dependencies + cycles + tools;
    valid := |errors| == 0;
  }
}
