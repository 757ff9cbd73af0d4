// Execution events written into the knowledge graph.
module GraphitiEventWriter {
  import opened Basics
  import opened KnowledgeGraph
  import opened GraphitiEdgeIds
  import InMemoryGraphiti

  datatype Event =
    | ExecutionStarted(
        executionId: string, goalId: string, planId: string, sessionId: string, correlationId: string,
        goal: string, stepCount: nat)
    | ExecutionCompleted(executionId: string, durationMs: real, stepsCompleted: nat, totalSteps: nat, totalRetries: nat)
    | ExecutionFailed(executionId: string, error: string, errorCode: Option<string>, durationMs: real,
        failedStep: string)
    | StepStarted(executionId: string, stepId: string, stepTitle: string, stepIndex: nat)
    | StepCompleted(stepId: string, durationMs: real, success: bool)
    | StepFailed(stepId: string, error: string, errorCode: Option<string>, durationMs: real)
    | RetryStarted(stepId: string, attempt: nat, maxAttempts: int, delayMs: real)
    | RetryCompleted(stepId: string, attempt: nat, success: bool)
    | CheckpointCreated(executionId: string, checkpointId: string, completedSteps: nat)
    | Other

  // ---- The nodes and updates each event calls for ------------------------------------------

  function Count(n: nat): Value { Number(n as real) }

  function Code(code: Option<string>): Value {
    if code.Some? then Text(code.value) else Undefined
  }

  function Brief(id: string): string {
    if |id| <= 8 then id else id[..8]
  }

  function GoalOf(e: Event): Node
    requires e.ExecutionStarted?
  {
    Node(GoalNode(e.goalId), "goal", e.goal, map["goalId" := Text(e.goalId)])
  }

  function PlanOf(e: Event): Node
    requires e.ExecutionStarted?
  {
    Node(PlanNode(e.planId), "plan", "Plan " + e.planId, map[
           "planId" := Text(e.planId), "stepCount" := Count(e.stepCount)])
  }

  function ExecutionOf(e: Event): Node
    requires e.ExecutionStarted?
  {
    Node(ExecNode(e.executionId), "execution", "Execution " + Brief(e.executionId), map[
           "executionId" := Text(e.executionId),
           "goal" := Text(e.goal),
           "status" := Text("running"),
           "sessionId" := Text(e.sessionId),
           "correlationId" := Text(e.correlationId),
           "stepCount" := Count(e.stepCount)])
  }

  function StepOf(e: Event): Node
    requires e.StepStarted?
  {
    Node(StepNode(e.stepId), "step", e.stepTitle, map[
           "stepId" := Text(e.stepId), "stepIndex" := Count(e.stepIndex), "status" := Text("running")])
  }

  function CheckpointOf(e: Event): Node
    requires e.CheckpointCreated?
  {
    Node(CheckpointNode(e.checkpointId), "entity", "Checkpoint " + Brief(e.checkpointId), map[
           "checkpointId" := Text(e.checkpointId), "completedSteps" := Count(e.completedSteps)])
  }

  predicate IsUpdate(e: Event) {
    || e.ExecutionCompleted? || e.ExecutionFailed?
    || e.StepCompleted? || e.StepFailed?
    || e.RetryStarted? || e.RetryCompleted?
  }

  function UpdatedNode(e: Event): string
    requires IsUpdate(e)
  {
    if e.ExecutionCompleted? || e.ExecutionFailed? then ExecNode(e.executionId) else StepNode(e.stepId)
  }

  function Update(e: Event): Properties
    requires IsUpdate(e)
  {
    match e
    case ExecutionCompleted(_, durationMs, stepsCompleted, totalSteps, totalRetries) =>
      map["status" := Text("completed"), "durationMs" := Number(durationMs), "stepsCompleted" := Count(stepsCompleted),
          "totalSteps" := Count(totalSteps), "totalRetries" := Count(totalRetries)]
    case ExecutionFailed(_, error, code, durationMs, failedStep) =>
      map["status" := Text("failed"), "error" := Text(error), "errorCode" := Code(code),
          "durationMs" := Number(durationMs), "failedStep" := Text(failedStep)]
    case StepCompleted(_, durationMs, success) =>
      map["status" := Text(if success then "completed" else "failed"), "durationMs" := Number(durationMs)]
    case StepFailed(_, error, code, durationMs) =>
      map["status" := Text("failed"), "error" := Text(error), "errorCode" := Code(code),
          "durationMs" := Number(durationMs)]
    case RetryStarted(_, attempt, maxAttempts, delayMs) =>
      map["status" := Text("retrying"), "retryAttempt" := Count(attempt),
          "maxRetryAttempts" := Number(maxAttempts as real), "retryDelayMs" := Number(delayMs)]
    case RetryCompleted(_, attempt, success) =>
      map["retryAttempt" := Count(attempt), "retrySuccess" := Flag(success)]
  }

  // ---- Writing ---------------------------------------------------------------------------------

  function EnsureNode(g: Graph, n: Node): Graph {
    if n.id in g.nodes then g else AddNode(g, n)
  }

  // Add the edge unless its id is taken, which is what AddEdge needs.
  function EnsureEdge(g: Graph, e: Edge): Graph {
    if e.id in g.edges then g else AddEdge(g, e)
  }

  function EnsureLink(g: Graph, l: Link): Graph {
    EnsureEdge(g, LinkEdge(l))
  }

  function PlaceNodes(g: Graph, goal: Node, plan: Node, execution: Node): Graph {
    AddNode(EnsureNode(EnsureNode(g, goal), plan), execution)
  }

  function Write(g: Graph, e: Event): Graph {
    if e.ExecutionStarted? then
      var placed := PlaceNodes(g, GoalOf(e), PlanOf(e), ExecutionOf(e));
      EnsureLink(EnsureLink(placed, Achieves(e.executionId, e.goalId)), Plans(e.executionId, e.planId))
    else if e.StepStarted? then EnsureLink(AddNode(g, StepOf(e)), Runs(e.executionId, e.stepId))
    else if e.CheckpointCreated? then
      EnsureLink(AddNode(g, CheckpointOf(e)), Produces(e.executionId, e.checkpointId))
    else if IsUpdate(e) then UpdateNode(g, UpdatedNode(e), Update(e))
    else g
  }

  function WriteAll(g: Graph, events: seq<Event>): Graph
    decreases |events|
  {
    if events == [] then g else WriteAll(Write(g, events[0]), events[1..])
  }

  // The edges an event asks for.
  function Links(e: Event): seq<Link> {
    if e.ExecutionStarted? then [Achieves(e.executionId, e.goalId), Plans(e.executionId, e.planId)]
    else if e.StepStarted? then [Runs(e.executionId, e.stepId)]
    else if e.CheckpointCreated? then [Produces(e.executionId, e.checkpointId)]
    else []
  }

  // ---- Invariant -------------------------------------------------------------------------

  ghost predicate Anchored(g: Graph, e: Edge) {
    e.source in g.nodes && e.target in g.nodes
  }

  ghost predicate IsLink(e: Edge) {
    exists l :: e == LinkEdge(l)
  }

  // The indexes agree, and every edge has both its ends and is one the writer asks for.
  ghost predicate Tidy(g: Graph) {
    && Agrees(g)
    && forall id :: id in g.edges ==> Anchored(g, g.edges[id]) && IsLink(g.edges[id])
  }

  ghost predicate Known(g: Graph, started: set<string>) {
    forall x :: x in started ==> ExecNode(x) in g.nodes
  }

  lemma {:induction false} NodeTidy(g: Graph, n: Node)
    requires Tidy(g)
    ensures Tidy(AddNode(g, n)) && n.id in AddNode(g, n).nodes && g.nodes.Keys <= AddNode(g, n).nodes.Keys
  {
  }

  lemma {:induction false} UpdateTidy(g: Graph, id: string, properties: Properties)
    requires Tidy(g)
    ensures Tidy(UpdateNode(g, id, properties)) && UpdateNode(g, id, properties).nodes.Keys == g.nodes.Keys
  {
  }

  lemma {:induction false} LinkTidy(g: Graph, l: Link)
    requires Tidy(g) && Anchored(g, LinkEdge(l))
    ensures Tidy(EnsureLink(g, l)) && EnsureLink(g, l).nodes == g.nodes
  {
    AddEdgeAgreesIff(g, LinkEdge(l));
  }

  lemma {:induction false} PlacedTidy(g: Graph, goal: Node, plan: Node, execution: Node)
    requires Tidy(g)
    ensures var placed := PlaceNodes(g, goal, plan, execution);
      && Tidy(placed) && placed.edges == g.edges
      && g.nodes.Keys <= placed.nodes.Keys
      && goal.id in placed.nodes && plan.id in placed.nodes && execution.id in placed.nodes
  {
    NodeTidy(g, goal);
    var withGoal := EnsureNode(g, goal);
    NodeTidy(withGoal, plan);
    NodeTidy(EnsureNode(withGoal, plan), execution);
  }

  // An execution is started before its steps and checkpoints are reported.
  ghost predicate WellOrdered(events: seq<Event>, started: set<string>)
    decreases |events|
  {
    events != [] ==>
      && (events[0].StepStarted? || events[0].CheckpointCreated? ==> events[0].executionId in started)
      && WellOrdered(events[1..], Started(events[0], started))
  }

  function Started(e: Event, started: set<string>): set<string> {
    if e.ExecutionStarted? then started + {e.executionId} else started
  }

  lemma {:induction false} NodeIds(e: Event)
    ensures e.ExecutionStarted? ==> GoalOf(e).id == GoalNode(e.goalId) && PlanOf(e).id == PlanNode(e.planId)
    ensures e.ExecutionStarted? ==> ExecutionOf(e).id == ExecNode(e.executionId)
    ensures e.StepStarted? ==> StepOf(e).id == StepNode(e.stepId)
    ensures e.CheckpointCreated? ==> CheckpointOf(e).id == CheckpointNode(e.checkpointId)
  {
  }

  lemma {:induction false} LinkEnds(x: string, id: string)
    ensures LinkEdge(Achieves(x, id)).source == ExecNode(x) && LinkEdge(Achieves(x, id)).target == GoalNode(id)
    ensures LinkEdge(Plans(x, id)).source == PlanNode(id) && LinkEdge(Plans(x, id)).target == ExecNode(x)
    ensures LinkEdge(Runs(x, id)).source == ExecNode(x) && LinkEdge(Runs(x, id)).target == StepNode(id)
    ensures LinkEdge(Produces(x, id)).source == ExecNode(x) && LinkEdge(Produces(x, id)).target == CheckpointNode(id)
  {
  }

  lemma {:induction false} StartTidy(g: Graph, e: Event, started: set<string>)
    requires Tidy(g) && Known(g, started) && e.ExecutionStarted?
    ensures Tidy(Write(g, e)) && Known(Write(g, e), Started(e, started))
  {
    NodeIds(e);
    LinkEnds(e.executionId, e.goalId);
    LinkEnds(e.executionId, e.planId);
    PlacedTidy(g, GoalOf(e), PlanOf(e), ExecutionOf(e));
    var placed := PlaceNodes(g, GoalOf(e), PlanOf(e), ExecutionOf(e));
    LinkTidy(placed, Achieves(e.executionId, e.goalId));
    LinkTidy(EnsureLink(placed, Achieves(e.executionId, e.goalId)), Plans(e.executionId, e.planId));
  }

  lemma {:induction false} HangTidy(g: Graph, n: Node, l: Link, started: set<string>)
    requires Tidy(g) && Known(g, started) && l.execution in started
    requires LinkEdge(l).source == ExecNode(l.execution) && LinkEdge(l).target == n.id
    ensures Tidy(EnsureLink(AddNode(g, n), l)) && Known(EnsureLink(AddNode(g, n), l), started)
  {
    NodeTidy(g, n);
    LinkTidy(AddNode(g, n), l);
  }

  lemma {:induction false} WriteTidy(g: Graph, e: Event, started: set<string>)
    requires Tidy(g) && Known(g, started)
    requires e.StepStarted? || e.CheckpointCreated? ==> e.executionId in started
    ensures Tidy(Write(g, e)) && Known(Write(g, e), Started(e, started))
  {
    NodeIds(e);
    if e.ExecutionStarted? {
      StartTidy(g, e, started);
    } else if e.StepStarted? {
      LinkEnds(e.executionId, e.stepId);
      HangTidy(g, StepOf(e), Runs(e.executionId, e.stepId), started);
    } else if e.CheckpointCreated? {
      LinkEnds(e.executionId, e.checkpointId);
      HangTidy(g, CheckpointOf(e), Produces(e.executionId, e.checkpointId), started);
    } else if IsUpdate(e) {
      UpdateTidy(g, UpdatedNode(e), Update(e));
    }
  }

  // Every well-ordered stream keeps the indexes in agreement and leaves no edge without its end nodes.
  lemma {:induction false} StreamTidy(g: Graph, events: seq<Event>, started: set<string>)
    requires Tidy(g) && Known(g, started) && WellOrdered(events, started)
    ensures Tidy(WriteAll(g, events))
    decreases |events|
  {
    if events != [] {
      WriteTidy(g, events[0], started);
      StreamTidy(Write(g, events[0]), events[1..], Started(events[0], started));
    }
  }

  // The order matters: a step reported first leaves an edge from a node that is not there.
  lemma {:induction false} EarlyStepDangles(x: string, s: string, title: string, index: nat)
    ensures !Tidy(Write(EMPTY, StepStarted(x, s, title, index)))
  {
    var e, l := StepStarted(x, s, title, index), Runs(x, s);
    NodeIds(e);
    LinkEnds(x, s);
    assert Write(EMPTY, e).edges[LinkEdge(l).id] == LinkEdge(l);
    assert Write(EMPTY, e).nodes.Keys == {StepNode(s)};
    assert ExecNode(x)[0] == 'e' && StepNode(s)[0] == 's';
  }

  // ---- Which edges get written ----------------------------------------------------------------

  ghost predicate Joins(e: Edge, l: Link) {
    e.kind == LinkEdge(l).kind && e.source == LinkEdge(l).source && e.target == LinkEdge(l).target
  }

  // The graph has an edge of that kind between those nodes.
  ghost predicate Connected(g: Graph, l: Link) {
    exists id :: id in g.edges && Joins(g.edges[id], l)
  }

  // The edge's id is not spent on another one.
  ghost predicate Free(g: Graph, l: Link) {
    LinkEdge(l).id in g.edges ==> g.edges[LinkEdge(l).id] == LinkEdge(l)
  }

  lemma {:induction false} JoinsOnlyItself(k: Link, l: Link)
    requires Joins(LinkEdge(k), l)
    ensures k == l
  {
    assert LinkEdge(k) == LinkEdge(l);
    LinkEdgeInjective(k, l);
  }

  lemma {:induction false} ConnectedIff(g: Graph, l: Link)
    requires Tidy(g)
    ensures Connected(g, l) <==> LinkEdge(l).id in g.edges && g.edges[LinkEdge(l).id] == LinkEdge(l)
  {
    if id :| id in g.edges && Joins(g.edges[id], l) {
      assert IsLink(g.edges[id]) && g.edges[id].id == id;
      var k :| g.edges[id] == LinkEdge(k);
      JoinsOnlyItself(k, l);
    }
  }

  // However often an edge is asked for, there is at most one.
  lemma {:induction false} OneEdgePerLink(g: Graph, l: Link, a: string, b: string)
    requires Tidy(g) && a in g.edges && b in g.edges
    requires Joins(g.edges[a], l) && Joins(g.edges[b], l)
    ensures a == b
  {
    assert IsLink(g.edges[a]) && IsLink(g.edges[b]) && g.edges[a].id == a && g.edges[b].id == b;
    var j, k :| g.edges[a] == LinkEdge(j) && g.edges[b] == LinkEdge(k);
    JoinsOnlyItself(j, l);
    JoinsOnlyItself(k, l);
  }

  // Ensuring an edge connects its nodes exactly when its id is free or already its own.
  lemma {:induction false} EnsureLinkIff(g: Graph, l: Link)
    requires Tidy(g)
    ensures Connected(EnsureLink(g, l), l) <==> Free(g, l)
  {
    ConnectedIff(g, l);
    if LinkEdge(l).id !in g.edges {
      assert Joins(EnsureLink(g, l).edges[LinkEdge(l).id], l);
    }
  }

  lemma {:induction false} EnsureOther(g: Graph, k: Link, l: Link)
    requires LinkEdge(k).id != LinkEdge(l).id
    ensures Free(EnsureLink(g, k), l) <==> Free(g, l)
    ensures Connected(EnsureLink(g, k), l) <==> Connected(g, l)
  {
    var h := EnsureLink(g, k);
    if Joins(LinkEdge(k), l) {
      JoinsOnlyItself(k, l);
    }
    if id :| id in h.edges && Joins(h.edges[id], l) {
      assert id in g.edges && g.edges[id] == h.edges[id];
    }
    if id :| id in g.edges && Joins(g.edges[id], l) {
      assert h.edges[id] == g.edges[id];
    }
  }

  lemma {:induction false} OneExecution(k: Link, l: Link)
    requires k.execution == l.execution
    ensures !Clash(k, l)
  {
    if Clash(k, l) {
      ClashConfuses(k, l);
      NotConfusable(k.execution, l.execution);
    }
  }

  // The edges an event asks for are in the graph it leaves, exactly when their ids were free or their own.
  lemma {:induction false} WrittenIff(g: Graph, e: Event, l: Link)
    requires Tidy(g) && l in Links(e)
    ensures Connected(Write(g, e), l) <==> Free(g, l)
  {
    if e.ExecutionStarted? {
      StartedIff(g, e);
    } else if e.StepStarted? {
      NodeTidy(g, StepOf(e));
      EnsureLinkIff(AddNode(g, StepOf(e)), l);
    } else {
      NodeTidy(g, CheckpointOf(e));
      EnsureLinkIff(AddNode(g, CheckpointOf(e)), l);
    }
  }

  lemma {:induction false} StartedIff(g: Graph, e: Event)
    requires Tidy(g) && e.ExecutionStarted?
    ensures forall l :: l in Links(e) ==> (Connected(Write(g, e), l) <==> Free(g, l))
  {
    var goal, plan := Achieves(e.executionId, e.goalId), Plans(e.executionId, e.planId);
    var placed := PlaceNodes(g, GoalOf(e), PlanOf(e), ExecutionOf(e));
    NodeIds(e);
    LinkEnds(e.executionId, e.goalId);
    PlacedTidy(g, GoalOf(e), PlanOf(e), ExecutionOf(e));
    OneExecution(goal, plan);
    TwoLinksIff(placed, goal, plan);
  }

  lemma {:induction false} TwoLinksIff(g: Graph, k: Link, l: Link)
    requires Tidy(g) && Anchored(g, LinkEdge(k)) && LinkEdge(k).id != LinkEdge(l).id
    ensures var h := EnsureLink(EnsureLink(g, k), l);
      && (Connected(h, k) <==> Free(g, k))
      && (Connected(h, l) <==> Free(g, l))
  {
    LinkTidy(g, k);
    EnsureLinkIff(g, k);
    EnsureLinkIff(EnsureLink(g, k), l);
    EnsureOther(g, k, l);
    EnsureOther(EnsureLink(g, k), l, k);
  }

  // ---- Whole streams ----------------------------------------------------------------------------

  ghost predicate KeepsEdges(g: Graph, h: Graph) {
    forall id :: id in g.edges ==> id in h.edges && h.edges[id] == g.edges[id]
  }

  lemma {:induction false} ConnectionSurvives(g: Graph, h: Graph, l: Link)
    requires Connected(g, l) && KeepsEdges(g, h)
    ensures Connected(h, l)
  {
    var id :| id in g.edges && Joins(g.edges[id], l);
    assert Joins(h.edges[id], l);
  }

  lemma {:induction false} EnsureKeepsEdges(g: Graph, l: Link)
    ensures KeepsEdges(g, EnsureLink(g, l))
  {
  }

  lemma {:induction false} WriteKeepsEdges(g: Graph, e: Event)
    ensures KeepsEdges(g, Write(g, e))
  {
    if e.ExecutionStarted? {
      var goal := Achieves(e.executionId, e.goalId);
      var placed := PlaceNodes(g, GoalOf(e), PlanOf(e), ExecutionOf(e));
      assert placed.edges == g.edges;
      EnsureKeepsEdges(placed, goal);
      EnsureKeepsEdges(EnsureLink(placed, goal), Plans(e.executionId, e.planId));
    } else if e.StepStarted? {
      EnsureKeepsEdges(AddNode(g, StepOf(e)), Runs(e.executionId, e.stepId));
    } else if e.CheckpointCreated? {
      EnsureKeepsEdges(AddNode(g, CheckpointOf(e)), Produces(e.executionId, e.checkpointId));
    }
  }

  lemma {:induction false} WriteAllKeepsEdges(g: Graph, events: seq<Event>)
    ensures KeepsEdges(g, WriteAll(g, events))
    decreases |events|
  {
    if events != [] {
      var h := Write(g, events[0]);
      WriteKeepsEdges(g, events[0]);
      WriteAllKeepsEdges(h, events[1..]);
      KeepsEdgesTransitive(g, h, WriteAll(h, events[1..]));
    }
  }

  lemma {:induction false} KeepsEdgesTransitive(g: Graph, h: Graph, last: Graph)
    requires KeepsEdges(g, h) && KeepsEdges(h, last)
    ensures KeepsEdges(g, last)
  {
  }

  // Every edge belongs to one of these executions.
  ghost predicate EdgesOf(g: Graph, executions: set<string>) {
    forall id :: id in g.edges ==> exists l: Link :: l.execution in executions && g.edges[id] == LinkEdge(l)
  }

  ghost predicate EventsOf(events: seq<Event>, executions: set<string>) {
    forall e, l: Link :: e in events && l in Links(e) ==> l.execution in executions
  }

  ghost predicate NoneConfusable(executions: set<string>) {
    forall x, y :: x in executions && y in executions ==> !Confusable(x, y)
  }

  lemma {:induction false} EnsureEdges(g: Graph, l: Link, executions: set<string>)
    requires EdgesOf(g, executions) && l.execution in executions
    ensures EdgesOf(EnsureLink(g, l), executions)
  {
  }

  lemma {:induction false} WriteEdges(g: Graph, e: Event, executions: set<string>)
    requires EdgesOf(g, executions) && EventsOf([e], executions)
    ensures EdgesOf(Write(g, e), executions)
  {
    assert e in [e];
    if e.ExecutionStarted? {
      var goal, plan := Achieves(e.executionId, e.goalId), Plans(e.executionId, e.planId);
      assert goal in Links(e) && plan in Links(e);
      var placed := PlaceNodes(g, GoalOf(e), PlanOf(e), ExecutionOf(e));
      assert placed.edges == g.edges;
      EnsureEdges(placed, goal, executions);
      EnsureEdges(EnsureLink(placed, goal), plan, executions);
    } else if e.StepStarted? {
      assert Runs(e.executionId, e.stepId) in Links(e);
      EnsureEdges(AddNode(g, StepOf(e)), Runs(e.executionId, e.stepId), executions);
    } else if e.CheckpointCreated? {
      assert Produces(e.executionId, e.checkpointId) in Links(e);
      EnsureEdges(AddNode(g, CheckpointOf(e)), Produces(e.executionId, e.checkpointId), executions);
    }
  }

  // Among executions of which no two are confusable, every edge finds its id free.
  lemma {:induction false} AlwaysFree(g: Graph, executions: set<string>, l: Link)
    requires Tidy(g) && NoneConfusable(executions) && EdgesOf(g, executions) && l.execution in executions
    ensures Free(g, l)
  {
    var id := LinkEdge(l).id;
    if id in g.edges {
      var k: Link :| k.execution in executions && g.edges[id] == LinkEdge(k);
      assert g.edges[id].id == id;
      if k != l {
        ClashConfuses(k, l);
      }
    }
  }

  ghost predicate Recorded(g: Graph, events: seq<Event>) {
    forall e, l: Link :: e in events && l in Links(e) ==> Connected(g, l)
  }

  // Then every edge that a well-ordered stream asks for is in the final graph.
  lemma {:induction false} StreamRecorded(g: Graph, events: seq<Event>, started: set<string>, executions: set<string>)
    requires Tidy(g) && Known(g, started) && WellOrdered(events, started)
    requires NoneConfusable(executions) && EdgesOf(g, executions) && EventsOf(events, executions)
    ensures Recorded(WriteAll(g, events), events)
    decreases |events|
  {
    if events != [] {
      var e := events[0];
      var h, last := Write(g, e), WriteAll(g, events);
      assert EventsOf([e], executions) && EventsOf(events[1..], executions);
      WriteTidy(g, e, started);
      WriteEdges(g, e, executions);
      StreamRecorded(h, events[1..], Started(e, started), executions);
      WriteAllKeepsEdges(h, events[1..]);
      forall l: Link | l in Links(e)
        ensures Connected(last, l)
      {
        assert e in events;
        AlwaysFree(g, executions, l);
        WrittenIff(g, e, l);
        ConnectionSurvives(h, last, l);
      }
    }
  }

  // The writer can be trusted with these executions: no stream of theirs loses an edge.
  ghost predicate Trusted(executions: set<string>) {
    forall events :: WellOrdered(events, {}) && EventsOf(events, executions) ==>
      Recorded(WriteAll(EMPTY, events), events)
  }

  // A stream that asks for the edge.
  function Announce(l: Link): seq<Event> {
    var goal := if l.Achieves? then l.id else "";
    var plan := if l.Plans? then l.id else "";
    [ExecutionStarted(l.execution, goal, plan, "", "", "", 1)]
    + match l
      case Runs(x, id) => [StepStarted(x, id, "", 0)]
      case Produces(x, id) => [CheckpointCreated(x, id, 0)]
      case _ => []
  }

  lemma {:induction false} AnnounceFacts(l: Link, more: seq<Event>, started: set<string>)
    requires WellOrdered(more, started + {l.execution})
    ensures WellOrdered(Announce(l) + more, started)
    ensures exists e :: e in Announce(l) && l in Links(e)
    ensures EventsOf(Announce(l), {l.execution})
  {
    var events := Announce(l);
    var first, last := events[0], events[|events| - 1];
    assert l in Links(last) && last in events;
    if |events| == 1 {
      assert (events + more)[1..] == more;
    } else {
      var rest := (events + more)[1..];
      assert rest == [last] + more && rest[1..] == more;
      assert Started(last, started + {l.execution}) == started + {l.execution};
      assert WellOrdered(rest, Started(first, started));
    }
  }

  // Of two edges with one id, a graph can hold only one.
  lemma {:induction false} NotBoth(g: Graph, k: Link, l: Link)
    requires Tidy(g) && Clash(k, l)
    ensures !(Connected(g, k) && Connected(g, l))
  {
    ConnectedIff(g, k);
    ConnectedIff(g, l);
    if LinkEdge(k) == LinkEdge(l) {
      LinkEdgeInjective(k, l);
    }
  }

  lemma {:induction false} BothAnnounced(k: Link, l: Link)
    ensures var events := Announce(k) + Announce(l);
      && WellOrdered(events, {}) && EventsOf(events, {k.execution, l.execution})
      && Tidy(WriteAll(EMPTY, events))
  {
    AnnounceFacts(l, [], {k.execution});
    assert Announce(l) + [] == Announce(l);
    assert {} + {k.execution} == {k.execution};
    AnnounceFacts(k, Announce(l), {});
    StreamTidy(EMPTY, Announce(k) + Announce(l), {});
  }

  lemma {:induction false} WriteAllSplits(g: Graph, before: seq<Event>, after: seq<Event>)
    ensures WriteAll(g, before + after) == WriteAll(WriteAll(g, before), after)
    decreases |before|
  {
    if before == [] {
      assert before + after == after;
    } else {
      assert (before + after)[1..] == before[1..] + after;
      WriteAllSplits(Write(g, before[0]), before[1..], after);
    }
  }

  // If two edges share an id, the one that is asked for later is never written.
  lemma {:induction false} LaterEdgeLost(k: Link, l: Link)
    requires Clash(k, l)
    ensures var g := WriteAll(EMPTY, Announce(k) + Announce(l)); Tidy(g) && Connected(g, k) && !Connected(g, l)
  {
    BothAnnounced(k, l);
    FirstEdgeWritten(k);
    StaysConnected(k, Announce(k), Announce(l));
    NotBoth(WriteAll(EMPTY, Announce(k) + Announce(l)), k, l);
  }

  lemma {:induction false} FirstEdgeWritten(k: Link)
    ensures Connected(WriteAll(EMPTY, Announce(k)), k)
  {
    AnnounceFacts(k, [], {});
    assert Announce(k) + [] == Announce(k);
    NotConfusable(k.execution, k.execution);
    StreamRecorded(EMPTY, Announce(k), {}, {k.execution});
  }

  lemma {:induction false} StaysConnected(k: Link, before: seq<Event>, after: seq<Event>)
    requires Connected(WriteAll(EMPTY, before), k)
    ensures Connected(WriteAll(EMPTY, before + after), k)
  {
    WriteAllSplits(EMPTY, before, after);
    WriteAllKeepsEdges(WriteAll(EMPTY, before), after);
    ConnectionSurvives(WriteAll(EMPTY, before), WriteAll(EMPTY, before + after), k);
  }

  // Every well-ordered stream of these executions gets all its edges if and only if no two of their ids are
  // confusable.
  lemma {:induction false} TrustedIff(executions: set<string>)
    ensures Trusted(executions) <==> NoneConfusable(executions)
  {
    if NoneConfusable(executions) {
      forall events | WellOrdered(events, {}) && EventsOf(events, executions)
        ensures Recorded(WriteAll(EMPTY, events), events)
      {
        StreamRecorded(EMPTY, events, {}, executions);
      }
    } else {
      var x, y :| x in executions && y in executions && Confusable(x, y);
      NotTrusted(executions, x, y);
    }
  }

  lemma {:induction false} NotTrusted(executions: set<string>, x: string, y: string)
    requires x in executions && y in executions && Confusable(x, y)
    ensures !Trusted(executions)
  {
    var k, l := ConfusableClash(x, y);
    var events := LossyStream(k, l);
    EdgeMissing(events, {x, y}, executions, l);
  }

  lemma {:induction false} LossyStream(k: Link, l: Link) returns (events: seq<Event>)
    requires Clash(k, l)
    ensures WellOrdered(events, {}) && EventsOf(events, {k.execution, l.execution})
    ensures (exists e :: e in events && l in Links(e)) && !Connected(WriteAll(EMPTY, events), l)
  {
    events := Announce(k) + Announce(l);
    LaterEdgeLost(k, l);
    BothAnnounced(k, l);
    Announced(l, Announce(k));
  }

  lemma {:induction false} EdgeMissing(events: seq<Event>, some: set<string>, executions: set<string>, l: Link)
    requires WellOrdered(events, {}) && EventsOf(events, some) && some <= executions
    requires (exists e :: e in events && l in Links(e)) && !Connected(WriteAll(EMPTY, events), l)
    ensures !Trusted(executions)
  {
    FewerEvents(events, some, executions);
    assert !Recorded(WriteAll(EMPTY, events), events);
  }

  lemma {:induction false} Announced(l: Link, before: seq<Event>)
    ensures exists e :: e in before + Announce(l) && l in Links(e)
  {
    AnnounceFacts(l, [], {});
    var e :| e in Announce(l) && l in Links(e);
    assert e in before + Announce(l);
  }

  lemma {:induction false} FewerEvents(events: seq<Event>, some: set<string>, executions: set<string>)
    requires EventsOf(events, some) && some <= executions
    ensures EventsOf(events, executions)
  {
  }

  // Two such streams: a step whose id spells the other execution's, and a plan whose id does.
  lemma {:induction false} StepEdgeLost(x: string, s: string, u: string)
    ensures var y := x + "-contains-step-" + s;
      var g := WriteAll(EMPTY, Announce(Runs(x, s + "-contains-step-" + u)) + Announce(Runs(y, u)));
      Tidy(g) && !Connected(g, Runs(y, u))
  {
    var y, long := x + "-contains-step-" + s, s + "-contains-step-" + u;
    LinkSpelling(Runs(x, long));
    LinkSpelling(Runs(y, u));
    assert x + RUNS + long == y + RUNS + u;
    assert |x| < |y|;
    LaterEdgeLost(Runs(x, long), Runs(y, u));
  }

  lemma {:induction false} PlanEdgeLost(p: string, r: string, x: string)
    ensures var y, q := r + "-contains-exec-" + x, p + "-contains-exec-" + r;
      var g := WriteAll(EMPTY, Announce(Plans(y, p)) + Announce(Plans(x, q)));
      Tidy(g) && !Connected(g, Plans(x, q))
  {
    var y, q := r + "-contains-exec-" + x, p + "-contains-exec-" + r;
    LinkSpelling(Plans(y, p));
    LinkSpelling(Plans(x, q));
    assert p + PLANS + y == q + PLANS + x;
    assert |x| < |y|;
    LaterEdgeLost(Plans(y, p), Plans(x, q));
  }

  // ---- What the nodes say --------------------------------------------------------------------------

  // The event makes the node anew.
  predicate Makes(e: Event, node: string) {
    || (e.ExecutionStarted? && node == ExecNode(e.executionId))
    || (e.StepStarted? && node == StepNode(e.stepId))
    || (e.CheckpointCreated? && node == CheckpointNode(e.checkpointId))
  }

  // The event is about the node of an execution or a step that has started.
  predicate About(e: Event, node: string) {
    || ((e.ExecutionCompleted? || e.ExecutionFailed?) && node == ExecNode(e.executionId))
    || ((e.StepCompleted? || e.StepFailed? || e.RetryStarted? || e.RetryCompleted?) && node == StepNode(e.stepId))
  }

  // What the event says about its node, property by property.
  function Says(e: Event, key: string): Option<Value> {
    if key == "status" then
      if e.ExecutionStarted? || e.StepStarted? then Some(Text("running"))
      else if e.ExecutionCompleted? || (e.StepCompleted? && e.success) then Some(Text("completed"))
      else if e.ExecutionFailed? || e.StepFailed? || e.StepCompleted? then Some(Text("failed"))
      else if e.RetryStarted? then Some(Text("retrying"))
      else None
    else if key == "durationMs" then
      if e.ExecutionCompleted? || e.ExecutionFailed? || e.StepCompleted? || e.StepFailed? then
        Some(Number(e.durationMs))
      else None
    else if key == "error" then if e.ExecutionFailed? || e.StepFailed? then Some(Text(e.error)) else None
    else if key == "errorCode" then if e.ExecutionFailed? || e.StepFailed? then Some(Code(e.errorCode)) else None
    else if key == "failedStep" then if e.ExecutionFailed? then Some(Text(e.failedStep)) else None
    else if key == "stepsCompleted" then if e.ExecutionCompleted? then Some(Count(e.stepsCompleted)) else None
    else if key == "totalSteps" then if e.ExecutionCompleted? then Some(Count(e.totalSteps)) else None
    else if key == "totalRetries" then if e.ExecutionCompleted? then Some(Count(e.totalRetries)) else None
    else if key == "retryAttempt" then
      if e.RetryStarted? || e.RetryCompleted? then Some(Count(e.attempt)) else None
    else if key == "maxRetryAttempts" then if e.RetryStarted? then Some(Number(e.maxAttempts as real)) else None
    else if key == "retryDelayMs" then if e.RetryStarted? then Some(Number(e.delayMs)) else None
    else if key == "retrySuccess" then if e.RetryCompleted? then Some(Flag(e.success)) else None
    else SaysAtStart(e, key)
  }

  // Properties that only the event that makes the node writes.
  function SaysAtStart(e: Event, key: string): Option<Value> {
    if key == "executionId" then if e.ExecutionStarted? then Some(Text(e.executionId)) else None
    else if key == "goal" then if e.ExecutionStarted? then Some(Text(e.goal)) else None
    else if key == "sessionId" then if e.ExecutionStarted? then Some(Text(e.sessionId)) else None
    else if key == "correlationId" then if e.ExecutionStarted? then Some(Text(e.correlationId)) else None
    else if key == "stepCount" then if e.ExecutionStarted? then Some(Count(e.stepCount)) else None
    else if key == "stepId" then if e.StepStarted? then Some(Text(e.stepId)) else None
    else if key == "stepIndex" then if e.StepStarted? then Some(Count(e.stepIndex)) else None
    else if key == "checkpointId" then if e.CheckpointCreated? then Some(Text(e.checkpointId)) else None
    else if key == "completedSteps" then if e.CheckpointCreated? then Some(Count(e.completedSteps)) else None
    else None
  }

  // The last thing a stream says about a property of a node, back to the event that made the node.
  function LastSaid(events: seq<Event>, node: string, key: string): Option<Value> {
    if events == [] then None
    else
      var n := |events| - 1;
      var e := events[n];
      if Makes(e, node) || (About(e, node) && Says(e, key).Some?) then Says(e, key)
      else LastSaid(events[..n], node, key)
  }

  predicate MadeIn(events: seq<Event>, node: string) {
    exists e :: e in events && Makes(e, node)
  }

  function Read(g: Graph, node: string, key: string): Option<Value>
    requires node in g.nodes
  {
    if key in g.nodes[node].properties then Some(g.nodes[node].properties[key]) else None
  }

  // A node of an execution, a step or a checkpoint.
  predicate IsWritten(node: string) {
    "exec-" <= node || "step-" <= node || "checkpoint-" <= node
  }

  // The node the event makes.
  function MadeBy(e: Event): Node
    requires e.ExecutionStarted? || e.StepStarted? || e.CheckpointCreated?
  {
    if e.ExecutionStarted? then ExecutionOf(e) else if e.StepStarted? then StepOf(e) else CheckpointOf(e)
  }

  lemma {:induction false} MadeSays(e: Event, key: string)
    requires e.ExecutionStarted? || e.StepStarted? || e.CheckpointCreated?
    ensures var properties := MadeBy(e).properties;
      Says(e, key) == if key in properties then Some(properties[key]) else None
  {
  }

  lemma {:induction false} UpdateSays(e: Event, key: string)
    requires IsUpdate(e)
    ensures Says(e, key) == if key in Update(e) then Some(Update(e)[key]) else None
  {
  }

  lemma {:induction false} OtherNodes(e: Event, node: string)
    requires IsWritten(node) && e.ExecutionStarted?
    ensures GoalOf(e).id != node && PlanOf(e).id != node
  {
    NodeIds(e);
    assert GoalNode(e.goalId)[0] == 'g' && PlanNode(e.planId)[0] == 'p';
    assert node[0] == 'e' || node[0] == 's' || node[0] == 'c';
  }

  // Edges change no node.
  lemma {:induction false} NodesWritten(g: Graph, e: Event)
    ensures e.ExecutionStarted? ==>
      Write(g, e).nodes == PlaceNodes(g, GoalOf(e), PlanOf(e), ExecutionOf(e)).nodes
    ensures e.StepStarted? || e.CheckpointCreated? ==> Write(g, e).nodes == g.nodes[MadeBy(e).id := MadeBy(e)]
    ensures IsUpdate(e) ==> Write(g, e).nodes == UpdateNode(g, UpdatedNode(e), Update(e)).nodes
    ensures e.Other? ==> Write(g, e) == g
  {
  }

  lemma {:induction false} PlacedNode(g: Graph, goal: Node, plan: Node, execution: Node, node: string)
    ensures var h := PlaceNodes(g, goal, plan, execution);
      && execution.id in h.nodes && h.nodes[execution.id] == execution
      && (node != execution.id && node != goal.id && node != plan.id ==>
            && (node in h.nodes <==> node in g.nodes)
            && (node in g.nodes ==> h.nodes[node] == g.nodes[node]))
      && (node != execution.id && node in g.nodes ==> node in h.nodes && h.nodes[node] == g.nodes[node])
  {
  }

  // What one event does to the node.
  lemma {:induction false} WriteNode(g: Graph, e: Event, node: string)
    requires IsWritten(node)
    ensures var h := Write(g, e);
      && (Makes(e, node) ==> node in h.nodes && h.nodes[node] == MadeBy(e))
      && (!Makes(e, node) ==> (node in h.nodes <==> node in g.nodes))
      && (!Makes(e, node) && !About(e, node) && node in g.nodes ==> h.nodes[node] == g.nodes[node])
      && (About(e, node) && node in g.nodes ==>
            h.nodes[node] == g.nodes[node].(properties := g.nodes[node].properties + Update(e)))
  {
    NodesWritten(g, e);
    if e.ExecutionStarted? {
      NodeIds(e);
      OtherNodes(e, node);
      PlacedNode(g, GoalOf(e), PlanOf(e), ExecutionOf(e), node);
    } else if e.StepStarted? || e.CheckpointCreated? {
      NodeIds(e);
    } else if IsUpdate(e) {
      UpdateNodeEffect(g, UpdatedNode(e), Update(e));
      AboutUpdated(e, node);
    }
  }

  lemma {:induction false} AboutUpdated(e: Event, node: string)
    requires IsUpdate(e)
    ensures About(e, node) <==> node == UpdatedNode(e)
    ensures !Makes(e, node)
  {
  }

  lemma {:induction false} WriteReads(g: Graph, e: Event, node: string, key: string)
    requires IsWritten(node) && node in Write(g, e).nodes
    ensures Makes(e, node) || node in g.nodes
    ensures Read(Write(g, e), node, key)
         == if Makes(e, node) || (About(e, node) && Says(e, key).Some?) then Says(e, key) else Read(g, node, key)
  {
    WriteNode(g, e, node);
    if Makes(e, node) {
      MadeSays(e, key);
    } else if About(e, node) {
      UpdateSays(e, key);
    }
  }

  // After any stream, the node of an execution, a step or a checkpoint is there exactly if it was made, and each of
  // its properties reads what was last said about it since.
  lemma {:induction false} NodesRead(events: seq<Event>, node: string, key: string)
    requires IsWritten(node)
    ensures var g := WriteAll(EMPTY, events);
      && (node in g.nodes <==> MadeIn(events, node))
      && (node in g.nodes ==> Read(g, node, key) == LastSaid(events, node, key))
  {
    if events != [] {
      var n := |events| - 1;
      var e, before := events[n], events[..n];
      assert events == before + [e] && [e][1..] == [];
      WriteAllSplits(EMPTY, before, [e]);
      var g := WriteAll(EMPTY, before);
      assert WriteAll(EMPTY, events) == Write(g, e);
      NodesRead(before, node, key);
      WriteNode(g, e, node);
      if node in Write(g, e).nodes {
        WriteReads(g, e, node, key);
      }
    }
  }

  // The kinds and captions of the nodes that are made anew.
  lemma {:induction false} NodeLabels(e: Event)
    ensures e.ExecutionStarted? ==>
      && MadeBy(e).kind == "execution"
      && exists brief :: IsBrief(brief, e.executionId) && MadeBy(e).caption == "Execution " + brief
    ensures e.StepStarted? ==> MadeBy(e).kind == "step" && MadeBy(e).caption == e.stepTitle
    ensures e.CheckpointCreated? ==>
      && MadeBy(e).kind == "entity"
      && exists brief :: IsBrief(brief, e.checkpointId) && MadeBy(e).caption == "Checkpoint " + brief
  {
    if e.ExecutionStarted? {
      assert IsBrief(Brief(e.executionId), e.executionId);
    } else if e.CheckpointCreated? {
      assert IsBrief(Brief(e.checkpointId), e.checkpointId);
    }
  }

  // The first eight characters, or all there are.
  predicate IsBrief(brief: string, id: string) {
    brief <= id && (|brief| == 8 || (|brief| < 8 && brief == id))
  }

  // Nodes of goals and plans say what the first event that mentions them says.
  lemma {:induction false} FirstMention(g: Graph, e: Event)
    requires e.ExecutionStarted?
    ensures var h, goal, plan := Write(g, e), GoalNode(e.goalId), PlanNode(e.planId);
      && goal in h.nodes && plan in h.nodes
      && h.nodes[goal] == (if goal in g.nodes then g.nodes[goal]
                           else Node(goal, "goal", e.goal, map["goalId" := Text(e.goalId)]))
      && h.nodes[plan] == (if plan in g.nodes then g.nodes[plan]
                           else Node(plan, "plan", "Plan " + e.planId,
                                     map["planId" := Text(e.planId), "stepCount" := Count(e.stepCount)]))
  {
    NodesWritten(g, e);
    NodeIds(e);
    MentionLetters(e);
    PlacedFirst(g, GoalOf(e), PlanOf(e), ExecutionOf(e));
  }

  lemma {:induction false} MentionLetters(e: Event)
    requires e.ExecutionStarted?
    ensures GoalNode(e.goalId) != PlanNode(e.planId)
    ensures GoalNode(e.goalId) != ExecNode(e.executionId) && PlanNode(e.planId) != ExecNode(e.executionId)
  {
    assert GoalNode(e.goalId)[0] == 'g' && PlanNode(e.planId)[0] == 'p' && ExecNode(e.executionId)[0] == 'e';
  }

  lemma {:induction false} PlacedFirst(g: Graph, goal: Node, plan: Node, execution: Node)
    requires goal.id != plan.id && goal.id != execution.id && plan.id != execution.id
    ensures var h := PlaceNodes(g, goal, plan, execution);
      && goal.id in h.nodes && h.nodes[goal.id] == (if goal.id in g.nodes then g.nodes[goal.id] else goal)
      && plan.id in h.nodes && h.nodes[plan.id] == (if plan.id in g.nodes then g.nodes[plan.id] else plan)
  {
  }

  lemma {:induction false} MentionedStays(g: Graph, e: Event, node: string)
    requires node in g.nodes && ("goal-" <= node || "plan-" <= node)
    ensures node in Write(g, e).nodes && Write(g, e).nodes[node] == g.nodes[node]
  {
    NodesWritten(g, e);
    OtherLetter(e, node);
    if e.ExecutionStarted? {
      PlacedNode(g, GoalOf(e), PlanOf(e), ExecutionOf(e), node);
    } else if IsUpdate(e) {
      UpdateNodeEffect(g, UpdatedNode(e), Update(e));
    }
  }

  lemma {:induction false} OtherLetter(e: Event, node: string)
    requires "goal-" <= node || "plan-" <= node
    ensures e.ExecutionStarted? || e.StepStarted? || e.CheckpointCreated? ==> MadeBy(e).id != node
    ensures IsUpdate(e) ==> UpdatedNode(e) != node
  {
    assert node[0] == 'g' || node[0] == 'p';
    NodeIds(e);
    if e.ExecutionStarted? {
      assert ExecNode(e.executionId)[0] == 'e';
    } else if e.StepStarted? {
      assert StepNode(e.stepId)[0] == 's';
    } else if e.CheckpointCreated? {
      assert CheckpointNode(e.checkpointId)[0] == 'c';
    } else if IsUpdate(e) {
      assert UpdatedNode(e)[0] == 'e' || UpdatedNode(e)[0] == 's';
    }
  }

  // ---- The writer object -------------------------------------------------------------------

  class GraphitiEventWriter {
    const graph: InMemoryGraphiti.InMemoryGraphiti

    constructor (graph: InMemoryGraphiti.InMemoryGraphiti)
      ensures this.graph == graph
    {
      this.graph := graph;
    }

    method HandleEvent(e: Event)
      modifies graph
      ensures graph.State() == Write(old(graph.State()), e)
    {
      if e.ExecutionStarted? {
        HandleExecutionStarted(e);
      } else if e.StepStarted? {
        graph.AddNode(StepOf(e));
        PutEdge("contains", ExecNode(e.executionId), StepNode(e.stepId));
      } else if e.CheckpointCreated? {
        graph.AddNode(CheckpointOf(e));
        PutEdge("produces", ExecNode(e.executionId), CheckpointNode(e.checkpointId));
      } else if IsUpdate(e) {
        var found := graph.UpdateNode(UpdatedNode(e), Update(e));
      }
    }

    method HandleExecutionStarted(e: Event)
      requires e.ExecutionStarted?
      modifies graph
      ensures graph.State() == Write(old(graph.State()), e)
    {
      if GoalNode(e.goalId) !in graph.nodes {
        graph.AddNode(GoalOf(e));
      }
      if PlanNode(e.planId) !in graph.nodes {
        graph.AddNode(PlanOf(e));
      }
      graph.AddNode(ExecutionOf(e));
      PutEdge("achieves", ExecNode(e.executionId), GoalNode(e.goalId));
      PutEdge("contains", PlanNode(e.planId), ExecNode(e.executionId));
    }

    // ensureEdge.
    method PutEdge(kind: string, source: string, target: string)
      modifies graph
      ensures graph.State() == EnsureEdge(old(graph.State()), Spelled(kind, source, target))
    {
      var id := EdgeId(source, kind, target);
      if id !in graph.edges {
        graph.AddEdge(Edge(id, kind, source, target));
      }
    }
  }
}
