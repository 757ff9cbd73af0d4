// Ordered startup: depth-first topological sort, guarded start, rollback.
module StartupManager {
  import opened Basics
  import opened Graphs

  datatype Step = Step(name: string, dependencies: seq<string>, hasRollback: bool)

  datatype Phase = Idle | Starting | Running | Failed | RolledBack

  function Entries(steps: seq<Step>): (entries: seq<(string, seq<string>)>)
    ensures |entries| == |steps|
  {
    Map(steps, (s: Step) => (s.name, s.dependencies))
  }

  function StepNames(steps: seq<Step>): (names: seq<string>)
    ensures |names| == |steps|
    ensures forall i :: 0 <= i < |steps| ==> names[i] == steps[i].name
  {
    Map(steps, (s: Step) => s.name)
  }

  // The dependency graph the sort works on; a repeated name keeps its last step.
  function Dependencies(steps: seq<Step>): Graph {
    Build(Entries(steps))
  }

  // With distinct names it is exactly what the steps declare.
  lemma {:induction false} DependenciesDistinct(steps: seq<Step>, i: nat)
    requires Distinct(StepNames(steps)) && i < |steps|
    ensures Succ(Dependencies(steps), steps[i].name) == steps[i].dependencies
  {
    assert Names(Entries(steps)) == StepNames(steps);
    BuildDistinct(Entries(steps), i);
  }

  function ByName(steps: seq<Step>): map<string, Step> {
    if steps == [] then map[]
    else
      var n := |steps| - 1;
      ByName(steps[..n])[steps[n].name := steps[n]]
  }

  lemma {:induction false} ByNameAgrees(steps: seq<Step>)
    ensures ByName(steps).Keys == Dependencies(steps).Keys
    ensures forall k :: k in ByName(steps) ==>
      ByName(steps)[k].name == k && ByName(steps)[k].dependencies == Dependencies(steps)[k]
  {
    if steps != [] {
      var n := |steps| - 1;
      ByNameAgrees(steps[..n]);
      assert Entries(steps)[..n] == Entries(steps[..n]);
    }
  }

  // ---- Topological sort --------------------------------------------------------------

  // Dependencies that name a step come earlier.
  ghost predicate KnownFirst(g: Graph, order: seq<string>) {
    forall i, d :: 0 <= i < |order| && d in Succ(g, order[i]) && d in g ==> d in order[..i]
  }

  // What the sort knows: the steps on the current path are visited and unfinished, the finished ones are in `result`.
  ghost predicate SortInvariant(
    g: Graph, byName: map<string, Step>, visited: set<string>, path: seq<string>, result: seq<Step>)
  {
    var names := StepNames(result);
    && (path != [] ==> IsWalk(g, path))
    && (forall x :: x in g ==> (x in visited <==> x in path || x in names))
    && (forall x :: x in path ==> x in visited && x in g && x !in names)
    && (forall s :: s in result ==> s.name in byName && s == byName[s.name])
    && Distinct(names)
    && (Acyclic(g) ==> KnownFirst(g, names))
  }

  // The named ones among the dependencies are in the result.
  ghost predicate Sorted(g: Graph, dependencies: seq<string>, result: seq<Step>) {
    forall d :: d in dependencies && d in g ==> d in StepNames(result)
  }

  // The dependencies of the step that are steps have been visited.
  ghost predicate Behind(g: Graph, name: string, visited: set<string>) {
    forall d :: d in Succ(g, name) && d in g ==> d in visited
  }

  // The steps are listed once each, behind those of their dependencies that are steps.
  ghost predicate InOrder(steps: seq<Step>) {
    Distinct(StepNames(steps)) && forall i :: 0 <= i < |steps| ==> StepBehind(steps, i)
  }

  ghost predicate StepBehind(steps: seq<Step>, i: nat)
    requires i < |steps|
  {
    forall d :: d in steps[i].dependencies && d in StepNames(steps) ==> d in StepNames(steps)[..i]
  }

  lemma {:induction false} InOrderTables(steps: seq<Step>, i: nat)
    requires InOrder(steps) && i < |steps|
    ensures steps[i].name in Dependencies(steps) && steps[i].name in ByName(steps)
    ensures ByName(steps)[steps[i].name] == steps[i]
    ensures Succ(Dependencies(steps), steps[i].name) == steps[i].dependencies
    ensures forall d :: d in Dependencies(steps) <==> d in StepNames(steps)
  {
    DependenciesDistinct(steps, i);
    LastByName(steps, i);
    forall d
      ensures d in Dependencies(steps) <==> d in StepNames(steps)
    {
      BuildKeys(Entries(steps), d);
      assert Names(Entries(steps)) == StepNames(steps);
    }
  }

  // With distinct names each step is found under its own.
  lemma {:induction false} LastByName(steps: seq<Step>, i: nat)
    requires Distinct(StepNames(steps)) && i < |steps|
    ensures steps[i].name in ByName(steps) && ByName(steps)[steps[i].name] == steps[i]
  {
    var n := |steps| - 1;
    assert StepNames(steps[..n]) == StepNames(steps)[..n];
    assert StepNames(steps)[i] == steps[i].name && StepNames(steps)[n] == steps[n].name;
    if i < n {
      LastByName(steps[..n], i);
    }
  }

  lemma {:induction false} EnterStep(
    g: Graph, byName: map<string, Step>, visited: set<string>, path: seq<string>, result: seq<Step>, name: string)
    requires SortInvariant(g, byName, visited, path, result)
    requires name in g && name !in visited && (path != [] ==> name in Succ(g, path[|path| - 1]))
    ensures SortInvariant(g, byName, visited + {name}, path + [name], result)
  {
    WalkAppend(g, path, name);
  }

  lemma {:induction false} LeaveStep(
    g: Graph, byName: map<string, Step>, visited: set<string>, path: seq<string>, result: seq<Step>, step: Step)
    requires SortInvariant(g, byName, visited, path + [step.name], result)
    requires step.name !in path && step.name in byName && byName[step.name] == step
    requires path != [] ==> IsWalk(g, path)
    requires Acyclic(g) ==> Sorted(g, Succ(g, step.name), result)
    ensures SortInvariant(g, byName, visited, path, result + [step])
  {
    SortAppend(g, result, step);
    assert step.name in path + [step.name];
    DistinctAppend(StepNames(result), step.name);
  }

  class TopologicalSort {
    const byName: map<string, Step>
    ghost const g: Graph
    ghost const universe: set<string>
    var visited: set<string>
    var result: seq<Step>
    ghost var path: seq<string>

    constructor (steps: seq<Step>)
      ensures Valid() && fresh(this)
      ensures byName == ByName(steps) && g == Dependencies(steps) && universe == Universe(g, StepNames(steps))
      ensures path == [] && result == [] && visited == {}
    {
      byName := ByName(steps);
      g := Dependencies(steps);
      universe := Universe(Dependencies(steps), StepNames(steps));
      visited, result, path := {}, [], [];
      ByNameAgrees(steps);
    }

    ghost predicate Tables() {
      && byName.Keys == g.Keys
      && (forall k :: k in byName ==> byName[k].name == k && byName[k].dependencies == g[k])
      && (forall k, d :: k in g && d in g[k] ==> d in universe)
    }

    ghost predicate Valid()
      reads this
    {
      Tables() && SortInvariant(g, byName, visited, path, result)
    }

    method Visit(name: string)
      requires Valid() && name in universe
      requires path != [] ==> name in Succ(g, path[|path| - 1])
      modifies this
      ensures Valid() && path == old(path)
      ensures old(visited) <= visited && old(result) <= result
      ensures name in visited
      ensures name in g && Acyclic(g) ==> name in StepNames(result)
      // With nothing left to visit first, a step comes right behind those already there.
      ensures name in old(visited) || name !in g ==> result == old(result)
      ensures name !in old(visited) && name in g && Behind(g, name, old(visited)) ==>
        result == old(result) + [byName[name]]
      decreases universe - visited, 0
    {
      if name in visited {
        if name in path {
          CloseCycle(g, path, Find(path, name), name);
        }
        return;
      }
      if name !in byName {
        visited := visited + {name};
        return;
      }
      EnterStep(g, byName, visited, path, result, name);
      visited := visited + {name};
      path := path + [name];
      var step := byName[name];
      VisitAll(step.dependencies);
      path := path[..|path| - 1];
      LeaveStep(g, byName, visited, path, result, step);
      NamesAppend(result, step);
      result := result + [step];
    }

    // The loop over the dependencies of the step being visited.
    method VisitAll(dependencies: seq<string>)
      requires Valid() && path != [] && dependencies == Succ(g, path[|path| - 1])
      requires forall d :: d in dependencies ==> d in universe
      modifies this
      ensures Valid() && path == old(path)
      ensures old(visited) <= visited && old(result) <= result
      ensures Acyclic(g) ==> Sorted(g, dependencies, result)
      ensures (forall d :: d in dependencies && d in g ==> d in old(visited)) ==> result == old(result)
      decreases universe - visited, 1
    {
      var i := 0;
      while i < |dependencies|
        invariant i <= |dependencies|
        invariant Valid() && path == old(path)
        invariant old(visited) <= visited && old(result) <= result
        invariant Acyclic(g) ==> Sorted(g, dependencies[..i], result)
        invariant (forall d :: d in dependencies && d in g ==> d in old(visited)) ==> result == old(result)
      {
        ghost var before := result;
        Visit(dependencies[i]);
        NamesGrow(before, result);
        assert dependencies[..i + 1] == dependencies[..i] + [dependencies[i]];
        i := i + 1;
      }
      assert dependencies[..i] == dependencies;
    }
  }

  lemma {:induction false} NamesGrow(before: seq<Step>, after: seq<Step>)
    requires before <= after
    ensures forall x :: x in StepNames(before) ==> x in StepNames(after)
  {
    assert StepNames(after)[..|before|] == StepNames(before);
  }

  lemma {:induction false} NamesAppend(result: seq<Step>, step: Step)
    ensures StepNames(result + [step]) == StepNames(result) + [step.name]
    ensures step.name in StepNames(result + [step])
  {
    assert StepNames(result + [step])[|result|] == step.name;
  }

  lemma {:induction false} SortAppend(g: Graph, result: seq<Step>, step: Step)
    ensures StepNames(result + [step]) == StepNames(result) + [step.name]
    ensures KnownFirst(g, StepNames(result)) && Sorted(g, Succ(g, step.name), result)
        ==> KnownFirst(g, StepNames(result + [step]))
  {
    var before, after := StepNames(result), StepNames(result + [step]);
    assert after == before + [step.name];
    if KnownFirst(g, before) && Sorted(g, Succ(g, step.name), result) {
      forall i, d | 0 <= i < |after| && d in Succ(g, after[i]) && d in g
        ensures d in after[..i]
      {
        if i < |before| {
          assert after[..i] == before[..i];
          assert after[i] == before[i];
        } else {
          assert after[..i] == before;
        }
      }
    }
  }

  // Every named step once, as last defined; in dependency order whenever there is one.
  ghost predicate GoodOrder(steps: seq<Step>, sorted: seq<Step>) {
    && Distinct(StepNames(sorted))
    && (forall x :: x in StepNames(sorted) <==> x in Dependencies(steps))
    && (forall s :: s in sorted ==> s.name in ByName(steps) && s == ByName(steps)[s.name])
    && (forall s :: s in sorted ==> s.dependencies == Succ(Dependencies(steps), s.name))
    && (Acyclic(Dependencies(steps)) ==> KnownFirst(Dependencies(steps), StepNames(sorted)))
  }

  lemma {:induction false} NameKnown(steps: seq<Step>, i: nat)
    requires i < |steps|
    ensures steps[i].name in Universe(Dependencies(steps), StepNames(steps))
  {
    assert steps[i].name == StepNames(steps)[i];
  }

  method Sort(steps: seq<Step>) returns (sorted: seq<Step>)
    ensures GoodOrder(steps, sorted)
    // Steps that are in order already stay as they are.
    ensures InOrder(steps) ==> sorted == steps
  {
    var sort := new TopologicalSort(steps);
    var i := 0;
    while i < |steps|
      invariant i <= |steps|
      invariant sort.Valid() && sort.path == []
      invariant VisitedTo(steps, sort.visited, i)
      invariant InOrder(steps) ==> sort.result == steps[..i]
    {
      NameKnown(steps, i);
      ghost var visited, result := sort.visited, sort.result;
      sort.Visit(steps[i].name);
      NextVisited(steps, visited, sort.visited, i);
      NextVisit(steps, visited, result, sort.result, i);
      i := i + 1;
    }
    sorted := sort.result;
    assert steps[..i] == steps;
    SortResult(steps, sort.visited, sorted);
  }

  // The first i steps have been visited.
  ghost predicate VisitedTo(steps: seq<Step>, visited: set<string>, i: nat) {
    i <= |steps| && forall j :: 0 <= j < i ==> steps[j].name in visited
  }

  lemma {:induction false} NextVisited(steps: seq<Step>, before: set<string>, after: set<string>, i: nat)
    requires VisitedTo(steps, before, i) && before <= after && i < |steps| && steps[i].name in after
    ensures VisitedTo(steps, after, i + 1)
  {
  }

  lemma {:induction false} NextVisit(
    steps: seq<Step>, visited: set<string>, result: seq<Step>, after: seq<Step>, i: nat)
    requires i < |steps| && (InOrder(steps) ==> result == steps[..i])
    requires SortInvariant(Dependencies(steps), ByName(steps), visited, [], result)
    requires VisitedTo(steps, visited, i)
    requires var g, byName, name := Dependencies(steps), ByName(steps), steps[i].name;
      name !in visited && name in g && name in byName && Behind(g, name, visited) ==> after == result + [byName[name]]
    ensures InOrder(steps) ==> after == steps[..i + 1]
  {
    if InOrder(steps) {
      NextInOrder(steps, visited, i);
    }
  }

  // The i-th step of a listing in order has all it waits for behind it, and has not been visited itself.
  lemma {:induction false} NextInOrder(steps: seq<Step>, visited: set<string>, i: nat)
    requires InOrder(steps) && i < |steps|
    requires SortInvariant(Dependencies(steps), ByName(steps), visited, [], steps[..i])
    requires VisitedTo(steps, visited, i)
    ensures steps[i].name in Dependencies(steps) && steps[i].name !in visited
    ensures Behind(Dependencies(steps), steps[i].name, visited)
    ensures steps[i].name in ByName(steps) && ByName(steps)[steps[i].name] == steps[i]
  {
    InOrderTables(steps, i);
    assert StepBehind(steps, i);
    assert StepNames(steps[..i]) == StepNames(steps)[..i];
    assert StepNames(steps)[i] == steps[i].name;
  }

  lemma {:induction false} SortMembers(steps: seq<Step>, visited: set<string>, sorted: seq<Step>)
    requires SortInvariant(Dependencies(steps), ByName(steps), visited, [], sorted)
    requires VisitedTo(steps, visited, |steps|)
    ensures forall x :: x in StepNames(sorted) <==> x in Dependencies(steps)
  {
    var g, names := Dependencies(steps), StepNames(sorted);
    forall x
      ensures x in g ==> x in names
      ensures x in names ==> x in g
    {
      BuildKeys(Entries(steps), x);
      assert Names(Entries(steps)) == StepNames(steps);
      if x in names {
        var i :| 0 <= i < |sorted| && sorted[i].name == x;
        assert sorted[i] in sorted;
        ByNameAgrees(steps);
      }
    }
  }

  lemma {:induction false} SortResult(steps: seq<Step>, visited: set<string>, sorted: seq<Step>)
    requires SortInvariant(Dependencies(steps), ByName(steps), visited, [], sorted)
    requires VisitedTo(steps, visited, |steps|)
    ensures GoodOrder(steps, sorted)
  {
    SortMembers(steps, visited, sorted);
    forall s | s in sorted
      ensures s.dependencies == Succ(Dependencies(steps), s.name)
    {
      ByNameAgrees(steps);
    }
  }

  // ---- Start -------------------------------------------------------------------------

  // Every dependency names a step, and nothing waits on itself.
  ghost predicate Resolvable(g: Graph) {
    && (forall k, d :: k in g && d in g[k] ==> d in g)
    && Acyclic(g)
  }

  // The whole configuration can start: it can be resolved, and every startup works.
  ghost predicate Startable(g: Graph, succeeds: string -> bool) {
    && Resolvable(g)
    && (forall k :: k in g ==> succeeds(k))
  }

  function Owed(byName: map<string, Step>, name: string): seq<string> {
    if name in byName && byName[name].hasRollback then [name] else []
  }

  // The rollbacks owed for the started steps: those that have one, last started first.
  function RollbackOf(byName: map<string, Step>, started: seq<string>): seq<string> {
    if started == [] then []
    else Owed(byName, started[|started| - 1]) + RollbackOf(byName, started[..|started| - 1])
  }

  lemma {:induction false} RollbackMembers(byName: map<string, Step>, started: seq<string>, x: string)
    ensures x in RollbackOf(byName, started) <==> x in started && x in byName && byName[x].hasRollback
    decreases |started|
  {
    if started != [] {
      var n := |started| - 1;
      RollbackMembers(byName, started[..n], x);
      assert started == started[..n] + [started[n]];
    }
  }

  // Dependents are rolled back before what they depend on.
  lemma {:induction false} RollbackDependentsFirst(
    g: Graph, byName: map<string, Step>, started: seq<string>, i: nat, j: nat)
    requires TopoOrdered(g, started) && Distinct(started)
    requires i < |RollbackOf(byName, started)| && j < |RollbackOf(byName, started)|
    requires RollbackOf(byName, started)[j] in Succ(g, RollbackOf(byName, started)[i])
    ensures i < j
    decreases |started|
  {
    var n := |started| - 1;
    var all, earlier := RollbackOf(byName, started), RollbackOf(byName, started[..n]);
    var shift := |Owed(byName, started[n])|;
    assert all == Owed(byName, started[n]) + earlier;
    if i >= shift && j >= shift {
      InitTopo(g, started);
      assert all[i] == earlier[i - shift] && all[j] == earlier[j - shift];
      RollbackDependentsFirst(g, byName, started[..n], i - shift, j - shift);
    } else if j < shift {
      assert all[j] == started[n];
      RollbackMembers(byName, started, all[i]);
      assert all[i] in started;
      LastIsNobodysDependency(g, started);
    }
  }

  lemma {:induction false} InitTopo(g: Graph, started: seq<string>)
    requires TopoOrdered(g, started) && Distinct(started) && started != []
    ensures TopoOrdered(g, started[..|started| - 1]) && Distinct(started[..|started| - 1])
  {
    var n := |started| - 1;
    forall k, d | 0 <= k < n && d in Succ(g, started[..n][k])
      ensures d in started[..n][..k]
    {
      assert started[..n][..k] == started[..k];
    }
  }

  lemma {:induction false} LastIsNobodysDependency(g: Graph, started: seq<string>)
    requires TopoOrdered(g, started) && Distinct(started) && started != []
    ensures forall x :: x in started ==> started[|started| - 1] !in Succ(g, x)
  {
    forall k | 0 <= k < |started|
      ensures started[|started| - 1] !in Succ(g, started[k])
    {
      assert started[|started| - 1] !in started[..k];
    }
  }

  class StartupManager {
    var steps: seq<Step>
    var phase: Phase
    var startedSteps: seq<string>
    var failedStep: Option<string>

    constructor (steps: seq<Step>)
      ensures this.steps == steps && phase == Idle && startedSteps == [] && failedStep == None
    {
      this.steps, phase, startedSteps, failedStep := steps, Idle, [], None;
    }

    // Removes the first step of that name, if any.
    method RemoveStep(name: string)
      modifies this`steps
      ensures name !in StepNames(old(steps)) ==> steps == old(steps)
      ensures name in StepNames(old(steps)) ==>
        var i := Find(StepNames(old(steps)), name); steps == old(steps)[..i] + old(steps)[i + 1..]
    {
      var names := StepNames(steps);
      if name in names {
        var i := Find(names, name);
        steps := steps[..i] + steps[i + 1..];
      }
    }

    // `attempted` and `rolledBack` are the calls made to the steps' own functions, in order.
    method Start(succeeds: string -> bool) returns (attempted: seq<string>, rolledBack: seq<string>)
      modifies this`phase, this`startedSteps, this`failedStep
      ensures phase == Running <==> Startable(Dependencies(steps), succeeds)
      ensures phase == Running || phase == Failed || phase == RolledBack
      // No step starts before its dependencies have started, and none starts twice.
      ensures TopoOrdered(Dependencies(steps), attempted) && Distinct(attempted)
      ensures forall x :: x in startedSteps ==> x in Dependencies(steps) && succeeds(x)
      ensures phase == Running ==>
        && attempted == startedSteps && rolledBack == [] && failedStep == None
        && ToSet(startedSteps) == Dependencies(steps).Keys
      // A failing startup rolls back what has started; an unmet dependency rolls back nothing.
      ensures phase == RolledBack ==>
        && failedStep.Some? && attempted == startedSteps + [failedStep.value] && !succeeds(failedStep.value)
        && rolledBack == RollbackOf(ByName(steps), startedSteps)
      ensures phase == Failed ==>
        && failedStep.Some? && attempted == startedSteps && rolledBack == []
        && (exists d :: d in Succ(Dependencies(steps), failedStep.value) && d !in startedSteps)
        && (Acyclic(Dependencies(steps)) ==> OnlyUnnamedUnmet(Dependencies(steps), startedSteps, failedStep.value))
      // A resolvable configuration never fails on a dependency; one that is not fails so unless a startup throws first.
      ensures Resolvable(Dependencies(steps)) ==> phase != Failed
      ensures (forall k :: k in Dependencies(steps) ==> succeeds(k)) ==>
        (phase == Failed <==> !Resolvable(Dependencies(steps)))
    {
      phase, startedSteps, failedStep := Starting, [], None;
      rolledBack := [];
      var sorted := Sort(steps);
      var started, failure := RunSteps(steps, sorted, succeeds);
      RunVerdict(steps, sorted, succeeds, started, failure);
      StartedPrefix(steps, sorted, succeeds, started, failure);
      UnmetVerdict(steps, sorted, succeeds, started, failure);
      attempted := started;
      match failure {
        case NoFailure =>
          phase, startedSteps := Running, started;
        case UnmetDependency(name) =>
          phase, startedSteps, failedStep := Failed, started, Some(name);
        case StartupThrew(name) =>
          attempted := started + [name];
          rolledBack := RollBack(ByName(steps), started);
          phase, startedSteps, failedStep := RolledBack, started, Some(name);
      }
    }
  }

  datatype Failure = NoFailure | UnmetDependency(name: string) | StartupThrew(name: string)

  // Whatever the step still waits for is no step, and the steps it depends on have started.
  ghost predicate OnlyUnnamedUnmet(g: Graph, started: seq<string>, name: string) {
    && name in g && name !in started
    && (forall d :: d in Succ(g, name) && d in g ==> d in started)
    && exists d :: d in Succ(g, name) && d !in g
  }

  // How far the guarded loop gets through the sorted steps, and what stops it.
  ghost predicate RanTo(
    g: Graph, names: seq<string>, succeeds: string -> bool, started: seq<string>, failure: Failure)
  {
    && started <= names
    && TopoOrdered(g, started)
    && (forall x :: x in started ==> succeeds(x))
    && match failure
       case NoFailure => started == names
       case UnmetDependency(name) =>
         |started| < |names| && names[|started|] == name && exists d :: d in Succ(g, name) && d !in started
       case StartupThrew(name) =>
         |started| < |names| && names[|started|] == name && !succeeds(name) && TopoOrdered(g, started + [name])
  }

  method RunSteps(ghost steps: seq<Step>, sorted: seq<Step>, succeeds: string -> bool)
    returns (started: seq<string>, failure: Failure)
    requires GoodOrder(steps, sorted)
    ensures RanTo(Dependencies(steps), StepNames(sorted), succeeds, started, failure)
  {
    started := [];
    var i := 0;
    while i < |sorted|
      invariant i <= |sorted|
      invariant started == StepNames(sorted)[..i]
      invariant TopoOrdered(Dependencies(steps), started)
      invariant forall x :: x in started ==> succeeds(x)
    {
      var step := sorted[i];
      var unmet := Missing(step.dependencies, started);
      if |unmet| > 0 {
        UnmetStep(steps, sorted, i, unmet[0]);
        return started, UnmetDependency(step.name);
      }
      NextStarts(steps, sorted, i, started);
      if !succeeds(step.name) {
        return started, StartupThrew(step.name);
      }
      started := started + [step.name];
      i := i + 1;
    }
    failure := NoFailure;
  }

  lemma {:induction false} NextStarts(steps: seq<Step>, sorted: seq<Step>, i: nat, started: seq<string>)
    requires GoodOrder(steps, sorted) && i < |sorted| && started == StepNames(sorted)[..i]
    requires TopoOrdered(Dependencies(steps), started)
    requires forall d :: d in sorted[i].dependencies ==> d in started
    ensures TopoOrdered(Dependencies(steps), started + [sorted[i].name])
    ensures started + [sorted[i].name] == StepNames(sorted)[..i + 1]
    ensures Succ(Dependencies(steps), sorted[i].name) == sorted[i].dependencies
  {
    assert sorted[i] in sorted;
    TopoAppend(Dependencies(steps), started, sorted[i].name);
  }

  lemma {:induction false} UnmetStep(steps: seq<Step>, sorted: seq<Step>, i: nat, d: string)
    requires GoodOrder(steps, sorted) && i < |sorted| && d in sorted[i].dependencies
    ensures d in Succ(Dependencies(steps), sorted[i].name)
  {
    assert sorted[i] in sorted;
  }

  lemma {:induction false} StartedPrefix(
    steps: seq<Step>, sorted: seq<Step>, succeeds: string -> bool, started: seq<string>, failure: Failure)
    requires GoodOrder(steps, sorted)
    requires RanTo(Dependencies(steps), StepNames(sorted), succeeds, started, failure)
    ensures forall x :: x in started ==> x in Dependencies(steps)
    ensures Distinct(started) && (failure.StartupThrew? ==> Distinct(started + [failure.name]))
  {
    PrefixDistinct(StepNames(sorted), started);
    if failure.StartupThrew? {
      assert started + [failure.name] == StepNames(sorted)[..|started| + 1];
      PrefixDistinct(StepNames(sorted), started + [failure.name]);
    }
  }

  lemma {:induction false} PrefixDistinct(names: seq<string>, started: seq<string>)
    requires Distinct(names) && started <= names
    ensures Distinct(started) && forall x :: x in started ==> x in names
  {
    assert started == names[..|started|];
  }

  // What an unmet dependency shows.
  lemma {:induction false} UnmetVerdict(
    steps: seq<Step>, sorted: seq<Step>, succeeds: string -> bool, started: seq<string>, failure: Failure)
    requires GoodOrder(steps, sorted)
    requires RanTo(Dependencies(steps), StepNames(sorted), succeeds, started, failure)
    ensures Resolvable(Dependencies(steps)) ==> !failure.UnmetDependency?
    ensures Acyclic(Dependencies(steps)) && failure.UnmetDependency? ==>
      OnlyUnnamedUnmet(Dependencies(steps), started, failure.name)
  {
    var g, names := Dependencies(steps), StepNames(sorted);
    if failure.UnmetDependency? && Acyclic(g) {
      assert started == names[..|started|];
      assert failure.name in names;
      assert forall d :: d in Succ(g, names[|started|]) && d in g ==> d in names[..|started|];
    }
  }

  lemma {:induction false} RunVerdict(
    steps: seq<Step>, sorted: seq<Step>, succeeds: string -> bool, started: seq<string>, failure: Failure)
    requires GoodOrder(steps, sorted)
    requires RanTo(Dependencies(steps), StepNames(sorted), succeeds, started, failure)
    ensures failure == NoFailure <==> Startable(Dependencies(steps), succeeds)
    ensures failure == NoFailure ==> ToSet(started) == Dependencies(steps).Keys
  {
    var g, names := Dependencies(steps), StepNames(sorted);
    match failure {
      case NoFailure =>
        AllStarted(g, names, succeeds);
      case UnmetDependency(name) =>
        var d :| d in Succ(g, name) && d !in started;
        OnlyUnstartable(g, names, |started|, d, succeeds);
        assert started == names[..|started|];
      case StartupThrew(name) =>
        assert name in names;
    }
  }

  lemma {:induction false} RollbackStep(byName: map<string, Step>, started: seq<string>, i: nat, called: seq<string>)
    requires i < |started|
    ensures called + RollbackOf(byName, started[..i + 1])
         == (called + Owed(byName, started[i])) + RollbackOf(byName, started[..i])
  {
    assert started[..i + 1][..i] == started[..i];
  }

  method RollBack(byName: map<string, Step>, started: seq<string>) returns (rolledBack: seq<string>)
    ensures rolledBack == RollbackOf(byName, started)
  {
    rolledBack := [];
    var i := |started|;
    assert started[..i] == started;
    while i > 0
      invariant 0 <= i <= |started|
      invariant rolledBack + RollbackOf(byName, started[..i]) == RollbackOf(byName, started)
    {
      i := i - 1;
      RollbackStep(byName, started, i, rolledBack);
      rolledBack := rolledBack + Owed(byName, started[i]);
    }
  }

  lemma {:induction false} OnlyUnstartable(g: Graph, names: seq<string>, i: nat, d: string, succeeds: string -> bool)
    requires i < |names| && d in Succ(g, names[i])
    requires Acyclic(g) ==> KnownFirst(g, names)
    requires forall x :: x in names <==> x in g
    ensures Startable(g, succeeds) ==> d in names[..i]
  {
    assert names[i] in names;
    if Startable(g, succeeds) {
      assert d in g;
    }
  }

  lemma {:induction false} AllStarted(g: Graph, names: seq<string>, succeeds: string -> bool)
    requires TopoOrdered(g, names)
    requires forall x :: x in names <==> x in g
    requires forall x :: x in names ==> succeeds(x)
    ensures Startable(g, succeeds)
  {
    TopoOrderedAcyclic(g, names);
    forall k, d | k in g && d in g[k]
      ensures d in g
    {
      FindDescends(g, names, k, d);
    }
  }

  // ---- A started step left running -----------------------------------------------------------

  const LEFT_RUNNING := [Step("a", [], true), Step("b", ["a", "c"], false)]

  lemma {:induction false} LeftRunningGraph()
    ensures Dependencies(LEFT_RUNNING) == map["a" := [], "b" := ["a", "c"]]
    ensures "a" in ByName(LEFT_RUNNING) && ByName(LEFT_RUNNING)["a"].hasRollback
    ensures Acyclic(Dependencies(LEFT_RUNNING)) && !Resolvable(Dependencies(LEFT_RUNNING))
  {
    var entries := Entries(LEFT_RUNNING);
    assert entries == [("a", []), ("b", ["a", "c"])];
    assert entries[..1] == [("a", [])] && entries[..1][..0] == [];
    assert Build(entries[..1]) == map["a" := []];
    assert LEFT_RUNNING[..1] == [LEFT_RUNNING[0]] && LEFT_RUNNING[..1][..0] == [];
    assert ByName(LEFT_RUNNING[..1]) == map["a" := LEFT_RUNNING[0]];
    var g := Dependencies(LEFT_RUNNING);
    assert g == map["a" := [], "b" := ["a", "c"]];
    assert TopoOrdered(g, ["c", "a", "b"]) by {
      assert ["c", "a", "b"][..2] == ["c", "a"];
    }
    TopoOrderedAcyclic(g, ["c", "a", "b"]);
    assert "c" in g["b"] && "c" !in g;
  }

  lemma {:induction false} LeftRunningOnlyA(started: seq<string>, failed: string)
    requires OnlyUnnamedUnmet(map["a" := [], "b" := ["a", "c"]], started, failed)
    requires Distinct(started) && forall x :: x in started ==> x == "a" || x == "b"
    ensures failed == "b" && started == ["a"]
  {
    var g: Graph := map["a" := [], "b" := ["a", "c"]];
    assert Succ(g, "a") == [] && Succ(g, "b") == ["a", "c"];
    assert failed != "a" && failed in g;
    assert "a" in Succ(g, failed) && "a" in g;
    assert forall x :: x in started ==> x == "a";
    assert ToSet(started) == {"a"};
    DistinctCardinality(started);
    assert started[0] in started;
  }

  // A step with a rollback starts, the next one waits for a step that is not there, and the first is left running.
  method UnmetRollsBackNothing() returns (manager: StartupManager, attempted: seq<string>, rolledBack: seq<string>)
    ensures manager.steps == LEFT_RUNNING && manager.phase == Failed && manager.failedStep == Some("b")
    ensures attempted == manager.startedSteps == ["a"]
    ensures RollbackOf(ByName(LEFT_RUNNING), manager.startedSteps) == ["a"] && rolledBack == []
  {
    manager := new StartupManager(LEFT_RUNNING);
    LeftRunningGraph();
    attempted, rolledBack := manager.Start(_ => true);
    LeftRunningOnlyA(manager.startedSteps, manager.failedStep.value);
    assert ["a"][..0] == [];
    assert RollbackOf(ByName(LEFT_RUNNING), []) == [];
  }
}
