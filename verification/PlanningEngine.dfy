// Rule-based plan generation, and why its plans pass both validators.
module PlanningEngine {
  import opened Basics
  import opened Graphs
  import opened Plans
  import opened PlanningValidator
  import ExecutionValidator
  import ExecutionRun
  import ExecutionDependencies

  datatype Tool = Tool(id: string, description: string, enabled: bool)

  datatype Strategy = Sequential | Parallel | Conditional

  // ---- Step ids ------------------------------------------------------------------------

  function StepId(n: nat): string {
    "step-" + Decimal(n)
  }

  lemma {:induction false} StepIdInjective(m: nat, n: nat)
    requires StepId(m) == StepId(n)
    ensures m == n
  {
    assert StepId(m)[5..] == Decimal(m) && StepId(n)[5..] == Decimal(n);
    DecimalInjective(m, n);
  }

  // ---- The shape of a generated plan --------------------------------------------------------

  // The step at index i is numbered i + 1 and waits for the one before it.
  ghost predicate Linked(s: PlanStep, i: nat) {
    s.id == StepId(i + 1) && s.dependsOn == if i == 0 then [] else [StepId(i)]
  }

  // Steps numbered from one, each waiting for the one before it.
  ghost predicate Chain(steps: seq<PlanStep>) {
    forall i :: 0 <= i < |steps| ==> Linked(steps[i], i)
  }

  lemma {:induction false} ChainDistinct(steps: seq<PlanStep>)
    requires Chain(steps)
    ensures Distinct(Ids(steps))
  {
    forall i, j | 0 <= i < j < |steps|
      ensures Ids(steps)[i] != Ids(steps)[j]
    {
      assert Linked(steps[i], i) && Linked(steps[j], j);
      if StepId(i + 1) == StepId(j + 1) {
        StepIdInjective(i + 1, j + 1);
      }
    }
  }

  lemma {:induction false} ChainStepForward(steps: seq<PlanStep>, i: nat, d: string)
    requires Chain(steps) && i < |steps| && d in steps[i].dependsOn
    ensures d in Ids(steps)[..i] && d in Ids(steps)
  {
    assert Linked(steps[i], i);
    assert Linked(steps[i - 1], i - 1);
    assert Ids(steps)[..i][i - 1] == d;
    assert Ids(steps)[i - 1] == d;
  }

  lemma {:induction false} ChainForward(steps: seq<PlanStep>)
    requires Chain(steps)
    ensures ForwardOrdered(steps) && DependenciesExist(steps)
  {
    forall i, d | 0 <= i < |steps| && d in steps[i].dependsOn
      ensures d in Ids(steps)[..i]
    {
      ChainStepForward(steps, i, d);
    }
    forall s, d | s in steps && d in s.dependsOn
      ensures d in Ids(steps)
    {
      var i :| 0 <= i < |steps| && steps[i] == s;
      ChainStepForward(steps, i, d);
    }
  }

  lemma {:induction false} ChainSound(steps: seq<PlanStep>)
    requires Chain(steps)
    ensures Distinct(Ids(steps)) && ForwardOrdered(steps) && DependenciesExist(steps)
    ensures Acyclic(Adjacency(steps))
  {
    ChainDistinct(steps);
    ChainForward(steps);
    ForwardAcyclic(steps);
  }

  // A plan whose dependencies point backwards has no cycle.
  lemma {:induction false} ForwardAcyclic(steps: seq<PlanStep>)
    requires Distinct(Ids(steps)) && ForwardOrdered(steps)
    ensures Acyclic(Adjacency(steps))
  {
    var g := Adjacency(steps);
    forall i, d | 0 <= i < |steps| && d in Succ(g, Ids(steps)[i])
      ensures d in Ids(steps)[..i]
    {
      AdjacencyDistinct(steps, i);
    }
    forall k | k in g
      ensures k in Ids(steps)
    {
      AdjacencyKeys(steps, k);
    }
    TopoOrderedAcyclic(g, Ids(steps));
  }

  function Relevant(tools: seq<Tool>): (relevant: seq<Tool>)
    ensures forall t :: t in relevant <==> t in tools && t.enabled
  {
    if tools == [] then []
    else (if tools[0].enabled then [tools[0]] else []) + Relevant(tools[1..])
  }

  function ToolIds(tools: seq<Tool>): (ids: seq<string>)
    ensures |ids| == |tools|
    ensures forall i :: 0 <= i < |tools| ==> ids[i] == tools[i].id
  {
    Map(tools, (t: Tool) => t.id)
  }

  // How many tools get a step of their own.
  function Placed(relevant: nat, maxSteps: int): nat {
    if maxSteps <= 2 then 0 else if relevant <= maxSteps - 2 then relevant else maxSteps - 2
  }

  function StepCount(relevant: nat, maxSteps: int): nat {
    if relevant == 0 then 1
    else
      var placed := Placed(relevant, maxSteps);
      2 + placed + if placed > 0 && 2 + placed < maxSteps then 1 else 0
  }

  function UnderstandStep(goal: string): PlanStep {
    PlanStep(StepId(1), "Understand and parse the goal", "Analyze the user's goal: \"" + goal + "\"", None, [],
             "Parsed goal with clear objectives")
  }

  function Joined(ids: seq<string>): string {
    if ids == [] then "" else if |ids| == 1 then ids[0] else ids[0] + ", " + Joined(ids[1..])
  }

  function IdentifyStep(relevant: seq<Tool>): PlanStep {
    PlanStep(
      StepId(2), "Identify relevant tools", "Map objectives to available tools: " + Joined(ToolIds(relevant)),
      None, [StepId(1)], "Tool-to-objective mapping")
  }

  function ToolStep(tool: Tool, n: nat): PlanStep {
    PlanStep(
      StepId(n + 1), "Execute " + tool.id, tool.description,
      Some(tool.id), [StepId(n)], "Result from " + tool.id)
  }

  function AggregateStep(n: nat): PlanStep {
    PlanStep(StepId(n + 1), "Aggregate results", "Combine results from all tool executions", None, [StepId(n)],
             "Final aggregated result")
  }

  function ToolSteps(relevant: seq<Tool>, placed: nat): (steps: seq<PlanStep>)
    requires placed <= |relevant|
    ensures |steps| == placed && forall k :: 0 <= k < placed ==> steps[k] == ToolStep(relevant[k], 2 + k)
  {
    seq(placed, k requires 0 <= k < placed => ToolStep(relevant[k], 2 + k))
  }

  // The fixed steps around one step for each placed tool, in order.
  function PlannedSteps(goal: string, relevant: seq<Tool>, maxSteps: int): seq<PlanStep> {
    if relevant == [] then [UnderstandStep(goal)]
    else
      var placed := Placed(|relevant|, maxSteps);
      [UnderstandStep(goal), IdentifyStep(relevant)] + ToolSteps(relevant, placed)
      + if placed > 0 && 2 + placed < maxSteps then [AggregateStep(2 + placed)] else []
  }

  lemma {:induction false} FixedLinked(goal: string, relevant: seq<Tool>, n: nat)
    requires n >= 1
    ensures Linked(UnderstandStep(goal), 0) && Linked(IdentifyStep(relevant), 1) && Linked(AggregateStep(n), n)
  {
  }

  lemma {:induction false} ToolLinked(tool: Tool, n: nat)
    requires n >= 1
    ensures Linked(ToolStep(tool, n), n)
  {
  }

  // Indexing into the fixed steps, the tools' steps and what may follow.
  lemma {:induction false} PartsAt(head: seq<PlanStep>, middle: seq<PlanStep>, tail: seq<PlanStep>, i: nat)
    requires |head| == 2 && |tail| <= 1 && i < |head + middle + tail|
    ensures (head + middle + tail)[i] ==
            if i < 2 then head[i] else if i < 2 + |middle| then middle[i - 2] else tail[0]
    ensures i <= 2 + |middle|
  {
  }

  // What each position of a generated plan holds.
  lemma {:induction false} PlannedAt(goal: string, relevant: seq<Tool>, maxSteps: int, i: nat)
    requires i < |PlannedSteps(goal, relevant, maxSteps)|
    ensures var placed := Placed(|relevant|, maxSteps);
      PlannedSteps(goal, relevant, maxSteps)[i] ==
      if i == 0 then UnderstandStep(goal)
      else if i == 1 then IdentifyStep(relevant)
      else if i < 2 + placed then ToolStep(relevant[i - 2], i) else AggregateStep(2 + placed)
    ensures i <= 2 + Placed(|relevant|, maxSteps)
  {
    if relevant != [] {
      var placed := Placed(|relevant|, maxSteps);
      PartsAt([UnderstandStep(goal), IdentifyStep(relevant)], ToolSteps(relevant, placed),
              if placed > 0 && 2 + placed < maxSteps then [AggregateStep(2 + placed)] else [], i);
    }
  }

  lemma {:induction false} PlannedLength(goal: string, relevant: seq<Tool>, maxSteps: int)
    ensures |PlannedSteps(goal, relevant, maxSteps)| == StepCount(|relevant|, maxSteps)
  {
  }

  lemma {:induction false} PlannedChain(goal: string, relevant: seq<Tool>, maxSteps: int)
    ensures Chain(PlannedSteps(goal, relevant, maxSteps))
  {
    var steps := PlannedSteps(goal, relevant, maxSteps);
    var placed := Placed(|relevant|, maxSteps);
    FixedLinked(goal, relevant, 2 + placed);
    forall i | 0 <= i < |steps|
      ensures Linked(steps[i], i)
    {
      PlannedAt(goal, relevant, maxSteps, i);
      if 2 <= i < 2 + placed {
        ToolLinked(relevant[i - 2], i);
      }
    }
  }

  // The loop over the tools, one step a tool until the plan is full.
  method PlaceTools(head: seq<PlanStep>, relevant: seq<Tool>, maxSteps: int) returns (steps: seq<PlanStep>)
    requires |head| == 2
    ensures steps == head + ToolSteps(relevant, Placed(|relevant|, maxSteps))
  {
    steps := head;
    var k := 0;
    while k < |relevant| && |steps| < maxSteps
      invariant 0 <= k <= |relevant|
      invariant steps == head + ToolSteps(relevant, k)
      invariant k == 0 || |steps| <= maxSteps
    {
      ToolStepsGrow(relevant, k);
      steps := steps + [ToolStep(relevant[k], |steps|)];
      k := k + 1;
    }
  }

  lemma {:induction false} ToolStepsGrow(relevant: seq<Tool>, k: nat)
    requires k < |relevant|
    ensures ToolSteps(relevant, k + 1) == ToolSteps(relevant, k) + [ToolStep(relevant[k], 2 + k)]
  {
  }

  method PlanSteps(goal: string, tools: seq<Tool>, maxSteps: int) returns (steps: seq<PlanStep>)
    requires maxSteps > 0
    ensures steps == PlannedSteps(goal, Relevant(tools), maxSteps)
  {
    var relevant := Relevant(tools);
    var first := UnderstandStep(goal);
    steps := [first];
    if |relevant| == 0 {
      return;
    }
    var second := IdentifyStep(relevant);
    steps := PlaceTools(steps + [second], relevant, maxSteps);
    assert [first] + [second] == [first, second];
    if |steps| > 2 && |steps| < maxSteps {
      steps := steps + [AggregateStep(|steps|)];
    }
  }

  // All three built-in strategies leave the steps as they are.
  function Organize(strategy: Strategy, steps: seq<PlanStep>): seq<PlanStep> {
    steps
  }

  // The dependency edges a strategy declares: (dependent, dependency).
  method GenerateDependencies(strategy: Strategy, steps: seq<PlanStep>) returns (edges: seq<(string, string)>)
    ensures strategy != Sequential ==> edges == []
    ensures strategy == Sequential ==> |edges| == (if steps == [] then 0 else |steps| - 1)
    ensures forall i :: 0 <= i < |edges| ==> edges[i] == (steps[i + 1].id, steps[i].id)
    // On a generated plan the sequential strategy declares exactly what the steps say themselves.
    ensures strategy == Sequential && Chain(steps) ==>
      forall s, d :: s in steps && d in s.dependsOn ==> (s.id, d) in edges
  {
    edges := [];
    if strategy == Sequential {
      var i := 1;
      while i < |steps|
        invariant 1 <= i && (steps == [] || i <= |steps|)
        invariant |edges| == if steps == [] then 0 else i - 1
        invariant forall j :: 0 <= j < |edges| ==> edges[j] == (steps[j + 1].id, steps[j].id)
      {
        edges := edges + [(steps[i].id, steps[i - 1].id)];
        i := i + 1;
      }
      if Chain(steps) {
        EdgesCover(steps, edges);
      }
    }
  }

  lemma {:induction false} EdgesCover(steps: seq<PlanStep>, edges: seq<(string, string)>)
    requires Chain(steps) && |edges| == if steps == [] then 0 else |steps| - 1
    requires forall i :: 0 <= i < |edges| ==> edges[i] == (steps[i + 1].id, steps[i].id)
    ensures forall s, d :: s in steps && d in s.dependsOn ==> (s.id, d) in edges
  {
    forall s, d | s in steps && d in s.dependsOn
      ensures (s.id, d) in edges
    {
      var k :| 0 <= k < |steps| && steps[k] == s;
      assert Linked(steps[k], k);
      assert k > 0 && Linked(steps[k - 1], k - 1);
      assert edges[k - 1] == (s.id, d);
    }
  }

  lemma {:induction false} RelevantKnown(tools: seq<Tool>, t: Tool, n: nat)
    requires t in Relevant(tools)
    ensures ToolKnown(ToolStep(t, n), ToolIds(tools))
  {
    var i :| 0 <= i < |tools| && tools[i] == t;
    assert ToolIds(tools)[i] == t.id;
  }

  lemma {:induction false} ToolStepFields(tool: Tool, n: nat)
    ensures FieldsPresent(ToolStep(tool, n)) <==> tool.description != ""
  {
  }

  lemma {:induction false} FixedStepFields(goal: string, relevant: seq<Tool>, n: nat, toolIds: seq<string>)
    ensures FieldsPresent(UnderstandStep(goal)) && ToolKnown(UnderstandStep(goal), toolIds)
    ensures FieldsPresent(IdentifyStep(relevant)) && ToolKnown(IdentifyStep(relevant), toolIds)
    ensures FieldsPresent(AggregateStep(n)) && ToolKnown(AggregateStep(n), toolIds)
  {
  }

  ghost predicate Described(tools: seq<Tool>, placed: nat)
    requires placed <= |tools|
  {
    forall k :: 0 <= k < placed ==> tools[k].description != ""
  }

  // What the validator finds at each position of a generated plan.
  lemma {:induction false} PositionChecks(goal: string, tools: seq<Tool>, maxSteps: int, i: nat)
    requires i < |PlannedSteps(goal, Relevant(tools), maxSteps)|
    ensures ToolKnown(PlannedSteps(goal, Relevant(tools), maxSteps)[i], ToolIds(tools))
    ensures Placed(|Relevant(tools)|, maxSteps) <= |Relevant(tools)|
    ensures FieldsPresent(PlannedSteps(goal, Relevant(tools), maxSteps)[i])
        <==> (2 <= i < 2 + Placed(|Relevant(tools)|, maxSteps) ==> Relevant(tools)[i - 2].description != "")
  {
    var relevant := Relevant(tools);
    var placed := Placed(|relevant|, maxSteps);
    FixedStepFields(goal, relevant, 2 + placed, ToolIds(tools));
    PlannedAt(goal, relevant, maxSteps, i);
    if 2 <= i < 2 + placed {
      ToolStepFields(relevant[i - 2], i);
      assert relevant[i - 2] in relevant;
      RelevantKnown(tools, relevant[i - 2], i);
    }
  }

  lemma {:induction false} StepwiseWellFormed(
    steps: seq<PlanStep>, toolIds: seq<string>, relevant: seq<Tool>, placed: nat)
    requires steps != [] && Chain(steps)
    requires placed <= |relevant| && (placed > 0 ==> 2 + placed <= |steps|)
    requires forall i :: 0 <= i < |steps| ==> ToolKnown(steps[i], toolIds)
    requires forall i :: 0 <= i < |steps| ==>
      (FieldsPresent(steps[i]) <==> (2 <= i < 2 + placed ==> relevant[i - 2].description != ""))
    ensures WellFormed(steps, toolIds) <==> Described(relevant, placed)
  {
    ChainSound(steps);
    if WellFormed(steps, toolIds) {
      forall k | 0 <= k < placed
        ensures relevant[k].description != ""
      {
        assert steps[2 + k] in steps;
        assert FieldsPresent(steps[2 + k]);
      }
    }
  }

  // The generated plan is well formed exactly when every tool that got a step has a description.
  lemma {:induction false} GeneratedWellFormedIff(goal: string, tools: seq<Tool>, maxSteps: int)
    ensures WellFormed(PlannedSteps(goal, Relevant(tools), maxSteps), ToolIds(tools))
        <==> Described(Relevant(tools), Placed(|Relevant(tools)|, maxSteps))
  {
    var relevant := Relevant(tools);
    var steps := PlannedSteps(goal, relevant, maxSteps);
    PlannedChain(goal, relevant, maxSteps);
    forall i | 0 <= i < |steps|
      ensures ToolKnown(steps[i], ToolIds(tools))
      ensures FieldsPresent(steps[i])
          <==> (2 <= i < 2 + Placed(|relevant|, maxSteps) ==> relevant[i - 2].description != "")
    {
      PositionChecks(goal, tools, maxSteps, i);
    }
    StepwiseWellFormed(steps, ToolIds(tools), relevant, Placed(|relevant|, maxSteps));
  }

  // ---- What a generated plan holds ------------------------------------------------------------

  // How many enabled tools there are.
  function EnabledCount(tools: seq<Tool>): nat {
    if tools == [] then 0
    else
      var n := |tools| - 1;
      EnabledCount(tools[..n]) + if tools[n].enabled then 1 else 0
  }

  lemma {:induction false} EnabledConcat(a: seq<Tool>, b: seq<Tool>)
    ensures EnabledCount(a + b) == EnabledCount(a) + EnabledCount(b)
    decreases |b|
  {
    if b == [] {
      assert a + b == a;
    } else {
      var n := |b| - 1;
      EnabledConcat(a, b[..n]);
      assert (a + b)[..|a + b| - 1] == a + b[..n];
    }
  }

  // The enabled tools keep their order.
  lemma {:induction false} RelevantAt(tools: seq<Tool>, i: nat)
    requires i < |tools| && tools[i].enabled
    ensures |Relevant(tools)| == EnabledCount(tools)
    ensures EnabledCount(tools[..i]) < |Relevant(tools)| && Relevant(tools)[EnabledCount(tools[..i])] == tools[i]
  {
    RelevantCount(tools);
    if i > 0 {
      RelevantAt(tools[1..], i - 1);
      EnabledBefore(tools, i);
    }
  }

  lemma {:induction false} EnabledBefore(tools: seq<Tool>, i: nat)
    requires 0 < i <= |tools|
    ensures EnabledCount(tools[..i]) == EnabledCount(tools[1..][..i - 1]) + if tools[0].enabled then 1 else 0
  {
    var first, rest := [tools[0]], tools[1..][..i - 1];
    assert tools[..i] == first + rest;
    EnabledConcat(first, rest);
    assert first[..0] == [];
  }

  lemma {:induction false} RelevantCount(tools: seq<Tool>)
    ensures |Relevant(tools)| == EnabledCount(tools)
  {
    if tools != [] {
      RelevantCount(tools[1..]);
      assert tools == [tools[0]] + tools[1..];
      EnabledConcat([tools[0]], tools[1..]);
      assert [tools[0]][..0] == [];
    }
  }

  // One step calls the k-th enabled tool, right after the two fixed ones, as long as there is room; no other step
  // calls a tool; and there is a last step besides if there is still room for it.
  ghost predicate CallsTools(steps: seq<PlanStep>, tools: seq<Tool>, maxSteps: int) {
    var enabled := EnabledCount(tools);
    && |steps| == (if enabled == 0 then 1 else if maxSteps <= 2 then 2
                   else if enabled + 3 <= maxSteps then enabled + 3 else maxSteps)
    && (forall i :: 0 <= i < |tools| ==> CallsAt(steps, tools, maxSteps, i))
    && (forall k :: 0 <= k < |steps| && (k < 2 || k >= 2 + enabled) ==> steps[k].tool == None)
  }

  ghost predicate CallsAt(steps: seq<PlanStep>, tools: seq<Tool>, maxSteps: int, i: nat)
    requires i < |tools|
  {
    var k := 2 + EnabledCount(tools[..i]);
    tools[i].enabled && k < maxSteps ==> CallsTool(steps, tools[i], k)
  }

  ghost predicate CallsTool(steps: seq<PlanStep>, tool: Tool, k: nat) {
    && k < |steps| && steps[k].tool == Some(tool.id)
    && steps[k].title == "Execute " + tool.id && steps[k].description == tool.description
    && steps[k].expectedResult == "Result from " + tool.id
  }

  lemma {:induction false} PlanCallsTool(goal: string, tools: seq<Tool>, maxSteps: int, i: nat)
    requires i < |tools| && tools[i].enabled && 2 + EnabledCount(tools[..i]) < maxSteps
    ensures CallsTool(PlannedSteps(goal, Relevant(tools), maxSteps), tools[i], 2 + EnabledCount(tools[..i]))
  {
    var k := 2 + EnabledCount(tools[..i]);
    RelevantAt(tools, i);
    PlannedLength(goal, Relevant(tools), maxSteps);
    PlannedAt(goal, Relevant(tools), maxSteps, k);
    ToolStepCalls(tools[i], k);
  }

  lemma {:induction false} ToolStepCalls(tool: Tool, k: nat)
    ensures var s := ToolStep(tool, k);
      && s.tool == Some(tool.id) && s.title == "Execute " + tool.id && s.description == tool.description
      && s.expectedResult == "Result from " + tool.id
  {
  }

  lemma {:induction false} FixedStepsCallNothing(goal: string, relevant: seq<Tool>, n: nat)
    ensures UnderstandStep(goal).tool == None && IdentifyStep(relevant).tool == None && AggregateStep(n).tool == None
  {
  }

  lemma {:induction false} PlanCallsNothing(goal: string, relevant: seq<Tool>, maxSteps: int, k: nat)
    requires k < |PlannedSteps(goal, relevant, maxSteps)| && (k < 2 || k >= 2 + |relevant|)
    ensures PlannedSteps(goal, relevant, maxSteps)[k].tool == None
  {
    PlannedAt(goal, relevant, maxSteps, k);
    FixedStepsCallNothing(goal, relevant, 2 + Placed(|relevant|, maxSteps));
  }

  lemma {:induction false} CountedLength(goal: string, tools: seq<Tool>, maxSteps: int, steps: seq<PlanStep>)
    requires maxSteps > 0 && steps == PlannedSteps(goal, Relevant(tools), maxSteps)
    ensures |Relevant(tools)| == EnabledCount(tools)
    ensures |steps| == (if |Relevant(tools)| == 0 then 1 else if maxSteps <= 2 then 2
                        else if |Relevant(tools)| + 3 <= maxSteps then |Relevant(tools)| + 3 else maxSteps)
  {
    RelevantCount(tools);
    PlannedLength(goal, Relevant(tools), maxSteps);
  }

  lemma {:induction false} PlanCallsOnly(goal: string, relevant: seq<Tool>, maxSteps: int, steps: seq<PlanStep>)
    requires steps == PlannedSteps(goal, relevant, maxSteps)
    ensures forall k :: 0 <= k < |steps| && (k < 2 || k >= 2 + |relevant|) ==> steps[k].tool == None
  {
    forall k | 0 <= k < |steps| && (k < 2 || k >= 2 + |relevant|)
      ensures steps[k].tool == None
    {
      PlanCallsNothing(goal, relevant, maxSteps, k);
    }
  }

  lemma {:induction false} PlanCallsTools(goal: string, tools: seq<Tool>, maxSteps: int, steps: seq<PlanStep>)
    requires maxSteps > 0 && steps == PlannedSteps(goal, Relevant(tools), maxSteps)
    ensures CallsTools(steps, tools, maxSteps)
  {
    CountedLength(goal, tools, maxSteps, steps);
    PlanCallsOnly(goal, Relevant(tools), maxSteps, steps);
    forall i | 0 <= i < |tools|
      ensures CallsAt(steps, tools, maxSteps, i)
    {
      if tools[i].enabled && 2 + EnabledCount(tools[..i]) < maxSteps {
        PlanCallsTool(goal, tools, maxSteps, i);
      }
    }
  }

  // The names a list spells, one by one, with commas in between.
  lemma {:induction false} JoinedIs(a: seq<string>, b: seq<string>)
    requires a != [] && b != []
    ensures Joined(a + b) == Joined(a) + ", " + Joined(b)
  {
    if |a| == 1 {
      assert (a + b)[1..] == b;
    } else {
      assert (a + b)[1..] == a[1..] + b;
      JoinedIs(a[1..], b);
      assert Joined(a + b) == a[0] + ", " + (Joined(a[1..]) + ", " + Joined(b));
    }
  }

  ghost predicate Mentions(text: string, what: string) {
    exists before, after :: text == before + what + after
  }

  // The first step quotes the goal, the second one, if any, lists the enabled tools.
  ghost predicate SpeaksOf(steps: seq<PlanStep>, goal: string, tools: seq<Tool>) {
    && steps != [] && Mentions(steps[0].description, goal)
    && (|steps| > 1 ==> Mentions(steps[1].description, Joined(ToolIds(Relevant(tools)))))
  }

  lemma {:induction false} UnderstandSpeaks(goal: string)
    ensures Mentions(UnderstandStep(goal).description, goal)
  {
    assert UnderstandStep(goal).description == "Analyze the user's goal: \"" + goal + "\"";
  }

  lemma {:induction false} IdentifySpeaks(relevant: seq<Tool>)
    ensures Mentions(IdentifyStep(relevant).description, Joined(ToolIds(relevant)))
  {
    EndsWithIt("Map objectives to available tools: ", Joined(ToolIds(relevant)));
  }

  lemma {:induction false} EndsWithIt(before: string, what: string)
    ensures Mentions(before + what, what)
  {
    assert before + what == before + what + "";
  }

  lemma {:induction false} PlanSpeaks(goal: string, relevant: seq<Tool>, maxSteps: int)
    ensures var steps := PlannedSteps(goal, relevant, maxSteps);
      && steps != [] && Mentions(steps[0].description, goal)
      && (|steps| > 1 ==> Mentions(steps[1].description, Joined(ToolIds(relevant))))
  {
    UnderstandSpeaks(goal);
    IdentifySpeaks(relevant);
    PlannedLength(goal, relevant, maxSteps);
    PlannedAt(goal, relevant, maxSteps, 0);
    if |PlannedSteps(goal, relevant, maxSteps)| > 1 {
      PlannedAt(goal, relevant, maxSteps, 1);
    }
  }

  // The step limit is kept unless it is one and there is a tool to use: then two steps come out.
  lemma {:induction false} StepLimitKeptIff(goal: string, tools: seq<Tool>, maxSteps: int)
    requires maxSteps > 0
    ensures |PlannedSteps(goal, Relevant(tools), maxSteps)| <= maxSteps
        <==> maxSteps >= 2 || forall t :: t in tools ==> !t.enabled
  {
    PlannedLength(goal, Relevant(tools), maxSteps);
    if Relevant(tools) != [] {
      assert Relevant(tools)[0] in Relevant(tools);
    } else {
      assert forall t :: t in tools && t.enabled ==> t in Relevant(tools);
    }
  }

  lemma {:induction false} GeneratedFacts(goal: string, tools: seq<Tool>, maxSteps: int, steps: seq<PlanStep>)
    requires maxSteps > 0 && steps == PlannedSteps(goal, Relevant(tools), maxSteps)
    ensures |steps| == StepCount(|Relevant(tools)|, maxSteps)
    ensures Chain(steps) && Distinct(Ids(steps)) && DependenciesExist(steps) && ForwardOrdered(steps)
    ensures WellFormed(steps, ToolIds(tools)) <==> Described(Relevant(tools), Placed(|Relevant(tools)|, maxSteps))
    ensures (forall t :: t in tools && t.enabled ==> t.description != "") ==> WellFormed(steps, ToolIds(tools))
  {
    PlannedChain(goal, Relevant(tools), maxSteps);
    PlannedLength(goal, Relevant(tools), maxSteps);
    ChainSound(steps);
    GeneratedWellFormedIff(goal, tools, maxSteps);
    assert forall k :: 0 <= k < |Relevant(tools)| ==> Relevant(tools)[k] in Relevant(tools);
  }

  // The dependencies a plan declares: one step after the other, or nothing beyond what the steps say.
  ghost predicate Declares(edges: seq<(string, string)>, strategy: Strategy, steps: seq<PlanStep>) {
    && |edges| == (if strategy == Sequential && steps != [] then |steps| - 1 else 0)
    && forall i :: 0 <= i < |edges| ==> edges[i] == (steps[i + 1].id, steps[i].id)
  }

  method GeneratePlan(goal: string, tools: seq<Tool>, maxSteps: int, strategy: Strategy)
    returns (plan: Plan, dependencies: seq<(string, string)>)
    requires maxSteps > 0
    ensures 1 <= |plan.steps| <= if maxSteps >= 2 then maxSteps else 2
    ensures |plan.steps| <= maxSteps <==> maxSteps >= 2 || forall t :: t in tools ==> !t.enabled
    ensures Chain(plan.steps)
    ensures plan.status == PlanValidated && Distinct(Ids(plan.steps)) && DependenciesExist(plan.steps)
    ensures ForwardOrdered(plan.steps)
    ensures CallsTools(plan.steps, tools, maxSteps)
    ensures SpeaksOf(plan.steps, goal, tools)
    ensures Declares(dependencies, strategy, plan.steps)
    ensures (forall t :: t in tools && t.enabled ==> t.description != "") ==> WellFormed(plan.steps, ToolIds(tools))
    ensures WellFormed(plan.steps, ToolIds(tools)) <==> Described(Relevant(tools), Placed(|Relevant(tools)|, maxSteps))
  {
    var steps := PlanSteps(goal, tools, maxSteps);
    dependencies := GenerateDependencies(strategy, steps);
    plan := Plan(Organize(strategy, steps), PlanValidated);
    PlanSpeaks(goal, Relevant(tools), maxSteps);
    GeneratedFacts(goal, tools, maxSteps, steps);
    StepLimitKeptIff(goal, tools, maxSteps);
    PlanCallsTools(goal, tools, maxSteps, steps);
  }

  // ---- Planning requests --------------------------------------------------------------

  datatype PlanningFault =
    | InvalidGoal
    | NoToolsAvailable
    | StrategyNotSupported(name: string)
    | BadMaxSteps(maxSteps: int)
    | InvalidPlan(errors: seq<PlanError>)

  datatype Response =
    | Planned(plan: Plan, strategy: Strategy, dependencies: seq<(string, string)>)
    | Refused(fault: PlanningFault)

  const DEFAULT_MAX_STEPS := 50

  function Limit(maxSteps: Option<int>): int {
    if maxSteps.Some? then maxSteps.value else DEFAULT_MAX_STEPS
  }

  // The characters `trim` removes.
  predicate IsSpace(c: char) {
    var n := c as int;
    || 0x9 <= n <= 0xD || n == 0x20 || n == 0xA0 || n == 0x1680 || 0x2000 <= n <= 0x200A
    || n == 0x2028 || n == 0x2029 || n == 0x202F || n == 0x205F || n == 0x3000 || n == 0xFEFF
  }

  predicate Blank(text: string) {
    forall c :: c in text ==> IsSpace(c)
  }

  function TrimStart(text: string): string {
    if text != "" && IsSpace(text[0]) then TrimStart(text[1..]) else text
  }

  function TrimEnd(text: string): string
    decreases |text|
  {
    if text != "" && IsSpace(text[|text| - 1]) then TrimEnd(text[..|text| - 1]) else text
  }

  // Trimming a text leaves nothing exactly when there is nothing but white space in it.
  lemma {:induction false} TrimmedAway(text: string)
    ensures TrimEnd(TrimStart(text)) == "" <==> Blank(text)
  {
    if text != "" {
      assert text == [text[0]] + text[1..];
      if IsSpace(text[0]) {
        TrimmedAway(text[1..]);
      } else {
        assert text[0] in text;
        TrimKeeps(text);
      }
    }
  }

  lemma {:induction false} TrimKeeps(text: string)
    requires text != "" && !IsSpace(text[0])
    ensures TrimEnd(text) != ""
    decreases |text|
  {
    if IsSpace(text[|text| - 1]) {
      TrimKeeps(text[..|text| - 1]);
    }
  }

  function StrategyNamed(name: string): Option<Strategy> {
    if name == "sequential" then Some(Sequential)
    else if name == "parallel" then Some(Parallel)
    else if name == "conditional" then Some(Conditional)
    else None
  }

  lemma {:induction false} StrategyNames()
    ensures StrategyNamed("sequential") == Some(Sequential)
    ensures StrategyNamed("parallel") == Some(Parallel)
    ensures StrategyNamed("conditional") == Some(Conditional)
    ensures StrategyNamed("") == None
  {
    assert "sequential"[0] == 's' && "parallel"[0] == 'p' && "conditional"[0] == 'c';
  }

  // The strategy a request asks for, if there is one of that name.
  function Preferred(name: Option<string>): Option<Strategy> {
    if name.Some? then StrategyNamed(name.value) else Some(Sequential)
  }

  // Exactly the requests that get a plan.
  ghost predicate Plannable(goal: string, tools: seq<Tool>, maxSteps: Option<int>, preferred: Option<string>) {
    && !Blank(goal) && tools != []
    && Limit(maxSteps) > 0 && Preferred(preferred).Some?
    && Described(Relevant(tools), Placed(|Relevant(tools)|, Limit(maxSteps)))
  }

  method MakePlan(goal: string, tools: seq<Tool>, maxSteps: Option<int>, preferred: Option<string>)
    returns (r: Response)
    ensures r.Planned? <==> Plannable(goal, tools, maxSteps, preferred)
    ensures r.Refused? && r.fault.StrategyNotSupported? ==> preferred == Some(r.fault.name)
    ensures Preferred(preferred).None? && !Blank(goal) && tools != [] && Limit(maxSteps) > 0 ==>
      r == Refused(StrategyNotSupported(preferred.value))
    // The first thing wrong with a request is what it is refused for.
    ensures r == Refused(InvalidGoal) <==> Blank(goal)
    ensures r == Refused(NoToolsAvailable) <==> !Blank(goal) && tools == []
    ensures forall n :: r == Refused(BadMaxSteps(n)) <==>
      && !Blank(goal) && tools != [] && (preferred == Some("") || Preferred(preferred).Some?)
      && maxSteps == Some(n) && n <= 0
    ensures r.Planned? ==> CallsTools(r.plan.steps, tools, Limit(maxSteps)) && SpeaksOf(r.plan.steps, goal, tools)
    ensures r.Planned? ==> Declares(r.dependencies, r.strategy, r.plan.steps)
    ensures r.Planned? && (preferred == None || preferred == Some("sequential")) ==> r.strategy == Sequential
    ensures r.Planned? && preferred == Some("parallel") ==> r.strategy == Parallel
    ensures r.Planned? && preferred == Some("conditional") ==> r.strategy == Conditional
    // Fifty steps unless the request says otherwise.
    ensures r.Planned? && maxSteps == None ==> |r.plan.steps| <= 50 && CallsTools(r.plan.steps, tools, 50)
    ensures r.Planned? ==>
      && WellFormed(r.plan.steps, ToolIds(tools)) && ExecutionValidator.Executable(r.plan)
      && ForwardOrdered(r.plan.steps) && Chain(r.plan.steps)
      && |r.plan.steps| <= if Limit(maxSteps) >= 2 then Limit(maxSteps) else 2
  {
    TrimmedAway(goal);
    if |TrimEnd(TrimStart(goal))| == 0 {
      return Refused(InvalidGoal);
    }
    if |tools| == 0 {
      return Refused(NoToolsAvailable);
    }
    // An empty name passes the first check for a strategy, not the second.
    if preferred.Some? && preferred.value != "" && StrategyNamed(preferred.value).None? {
      return Refused(StrategyNotSupported(preferred.value));
    }
    if maxSteps.Some? && maxSteps.value <= 0 {
      return Refused(BadMaxSteps(maxSteps.value));
    }
    if Preferred(preferred).None? {
      return Refused(StrategyNotSupported(preferred.value));
    }
    StrategyNames();
    var strategy := Preferred(preferred).value;
    var plan, dependencies := GeneratePlan(goal, tools, Limit(maxSteps), strategy);
    var valid, errors := ValidatePlan(plan, ToolIds(tools));
    r := if valid then Planned(plan, strategy, dependencies) else Refused(InvalidPlan(errors));
  }

  lemma {:induction false} AllRelevant(tools: seq<Tool>)
    requires forall t :: t in tools ==> t.enabled
    ensures Relevant(tools) == tools
  {
    if tools != [] {
      AllRelevant(tools[1..]);
    }
  }

  // The definitions the execution engine makes up from bare tool ids.
  function BareTools(ids: seq<string>): (tools: seq<Tool>)
    ensures |tools| == |ids|
  {
    Map(ids, (id: string) => Tool(id, "", true))
  }

  // Bare tools have no description, so a plan comes about only when no tool gets a step: never by default.
  lemma {:induction false} BareToolsPlannableIff(
    goal: string, ids: seq<string>, maxSteps: Option<int>, preferred: Option<string>)
    ensures Plannable(goal, BareTools(ids), maxSteps, preferred)
        <==> && !Blank(goal) && ids != [] && Preferred(preferred).Some?
             && maxSteps.Some? && 1 <= maxSteps.value <= 2
  {
    var tools := BareTools(ids);
    AllRelevant(tools);
    if ids != [] && Limit(maxSteps) > 2 {
      assert Placed(|tools|, Limit(maxSteps)) > 0 && tools[0].description == "";
    }
  }

  // Run by the execution loop without replanning, a generated plan never starts a step before its dependencies.
  lemma {:induction false} GeneratedPlanRespected(
    cfg: ExecutionRun.Config, steps: seq<PlanStep>, ticks: seq<ExecutionRun.Tick>)
    requires Chain(steps) && !cfg.canReplan
    ensures ExecutionDependencies.Respects(
      steps, ExecutionRun.Execute(cfg, ExecutionRun.Fresh(Plan(steps, PlanValidated), false), ticks).0.events)
  {
    ChainSound(steps);
    ExecutionDependencies.DependenciesRespectedIff(cfg, Plan(steps, PlanValidated));
  }
}
