// A run's events, as the graph writer receives them.
module ExecutionStream {
  import opened Basics
  import opened Plans
  import opened ExecutionRun
  import opened ExecutionGrowth
  import opened ExecutionState
  import opened ExecutionHistory
  import opened ExecutionRetry
  import opened ExecutionOutcomes
  import opened ExecutionJournal
  import W = GraphitiEventWriter
  import IDs = GraphitiEdgeIds
  import KG = KnowledgeGraph

  // What a run's own events leave open: ids, texts and times.
  datatype Surroundings = Surroundings(
    executionId: string,
    goalId: string,
    planId: string,
    sessionId: string,
    correlationId: string,
    goal: string,
    maxAttempts: int,
    title: string -> string,
    checkpointId: nat -> string,
    message: nat -> string,
    durationMs: nat -> real)

  // The k-th event of a run, as published.
  function Publish(env: Surroundings, k: nat, e: Event): W.Event {
    match e
    case ExecutionStarted(n) =>
      W.ExecutionStarted(env.executionId, env.goalId, env.planId, env.sessionId, env.correlationId, env.goal, n)
    case StepStartedEvent(id, i) => W.StepStarted(env.executionId, id, env.title(id), i)
    case CheckpointCreated(n, completed) => W.CheckpointCreated(env.executionId, env.checkpointId(n), completed)
    case StepCompletedEvent(id) => W.StepCompleted(id, env.durationMs(k), true)
    case StepFailedEvent(id, code) => W.StepFailed(id, env.message(k), code, env.durationMs(k))
    case RetryStarted(id, attempt, delayMs) => W.RetryStarted(id, attempt, env.maxAttempts, delayMs)
    case ExecutionCompleted(completed, total, retries) =>
      W.ExecutionCompleted(env.executionId, env.durationMs(k), completed, total, retries)
    case ExecutionFailed(step) =>
      W.ExecutionFailed(
        env.executionId, env.message(k), None, env.durationMs(k),
        if step.Some? then step.value else "unknown")
    case _ => W.Other
  }

  function PublishAll(env: Surroundings, events: seq<Event>): (ws: seq<W.Event>)
    ensures |ws| == |events|
    ensures forall i :: 0 <= i < |events| ==> ws[i] == Publish(env, i, events[i])
  {
    seq(|events|, i requires 0 <= i < |events| => Publish(env, i, events[i]))
  }

  // ---- The first event of a run ---------------------------------------------------------

  ghost predicate Opened(c: Context) {
    c.events != [] && c.events[0].ExecutionStarted?
  }

  lemma {:induction false} ExecuteOpened(cfg: Config, plan: Plan, aborted: bool, ticks: seq<Tick>)
    ensures Opened(Execute(cfg, Fresh(plan, aborted), ticks).0)
  {
    ExecuteGrows(_ => true, cfg, plan, aborted, ticks);
    assert Opened(Start(Fresh(plan, aborted)));
  }

  lemma {:induction false} OneExecutionOrdered(events: seq<W.Event>, x: string, started: set<string>)
    requires x in started
    requires forall e :: e in events && (e.StepStarted? || e.CheckpointCreated?) ==> e.executionId == x
    ensures W.WellOrdered(events, started)
    decreases |events|
  {
    if events != [] {
      OneExecutionOrdered(events[1..], x, W.Started(events[0], started));
    }
  }

  // The run is connected to its goal, its plan, each step handed to the executor and each checkpoint.
  ghost predicate Documents(g: KG.Graph, env: Surroundings, events: seq<Event>) {
    && W.Connected(g, IDs.Achieves(env.executionId, env.goalId))
    && W.Connected(g, IDs.Plans(env.executionId, env.planId))
    && (forall e :: e in events && e.StepStartedEvent? ==> W.Connected(g, IDs.Runs(env.executionId, e.stepId)))
    && (forall e :: e in events && e.CheckpointCreated? ==>
          W.Connected(g, IDs.Produces(env.executionId, env.checkpointId(e.number))))
  }

  // Whatever happens during a run, its events are a stream the writer handles well: starting from an empty graph,
  // the indexes agree, every edge has both ends, and no edge of the run is missing.
  lemma {:induction false} RunWritesTidyGraph(
    cfg: Config, plan: Plan, aborted: bool, ticks: seq<Tick>, env: Surroundings)
    ensures var events := Execute(cfg, Fresh(plan, aborted), ticks).0.events;
      var g := W.WriteAll(KG.EMPTY, PublishAll(env, events));
      W.Tidy(g) && Documents(g, env, events)
  {
    ExecuteOpened(cfg, plan, aborted, ticks);
    StreamWritesTidyGraph(Execute(cfg, Fresh(plan, aborted), ticks).0.events, env);
  }

  lemma {:induction false} PublishedOrdered(events: seq<Event>, env: Surroundings)
    requires events != [] && events[0].ExecutionStarted?
    ensures W.WellOrdered(PublishAll(env, events), {})
  {
    var ws := PublishAll(env, events);
    OneExecutionOrdered(ws[1..], env.executionId, {env.executionId});
    assert W.Started(ws[0], {}) == {env.executionId};
  }

  // A run publishes under one execution id.
  lemma {:induction false} PublishedFrom(events: seq<Event>, env: Surroundings)
    ensures W.EventsOf(PublishAll(env, events), {env.executionId})
  {
    forall w, l: IDs.Link | w in PublishAll(env, events) && l in W.Links(w)
      ensures l.execution == env.executionId
    {
      var i :| 0 <= i < |events| && PublishAll(env, events)[i] == w;
      assert w == Publish(env, i, events[i]);
    }
  }

  lemma {:induction false} WrittenTidy(ws: seq<W.Event>, x: string)
    requires W.WellOrdered(ws, {}) && W.EventsOf(ws, {x})
    ensures W.Tidy(W.WriteAll(KG.EMPTY, ws)) && W.Recorded(W.WriteAll(KG.EMPTY, ws), ws)
  {
    IDs.NotConfusable(x, x);
    W.StreamTidy(KG.EMPTY, ws, {});
    W.StreamRecorded(KG.EMPTY, ws, {}, {x});
  }

  lemma {:induction false} PublishedLink(g: KG.Graph, env: Surroundings, events: seq<Event>, i: nat, l: IDs.Link)
    requires W.Recorded(g, PublishAll(env, events)) && i < |events| && l in W.Links(Publish(env, i, events[i]))
    ensures W.Connected(g, l)
  {
    assert PublishAll(env, events)[i] in PublishAll(env, events);
  }

  lemma {:induction false} StreamWritesTidyGraph(events: seq<Event>, env: Surroundings)
    requires events != [] && events[0].ExecutionStarted?
    ensures var g := W.WriteAll(KG.EMPTY, PublishAll(env, events)); W.Tidy(g) && Documents(g, env, events)
  {
    var g := W.WriteAll(KG.EMPTY, PublishAll(env, events));
    PublishedOrdered(events, env);
    PublishedFrom(events, env);
    WrittenTidy(PublishAll(env, events), env.executionId);
    RecordedDocuments(g, events, env);
  }

  lemma {:induction false} RecordedDocuments(g: KG.Graph, events: seq<Event>, env: Surroundings)
    requires events != [] && events[0].ExecutionStarted? && W.Recorded(g, PublishAll(env, events))
    ensures Documents(g, env, events)
  {
    PublishedLink(g, env, events, 0, IDs.Achieves(env.executionId, env.goalId));
    PublishedLink(g, env, events, 0, IDs.Plans(env.executionId, env.planId));
    forall e | e in events
      ensures e.StepStartedEvent? ==> W.Connected(g, IDs.Runs(env.executionId, e.stepId))
      ensures e.CheckpointCreated? ==> W.Connected(g, IDs.Produces(env.executionId, env.checkpointId(e.number)))
    {
      var i :| 0 <= i < |events| && events[i] == e;
      if e.StepStartedEvent? {
        PublishedLink(g, env, events, i, IDs.Runs(env.executionId, e.stepId));
      } else if e.CheckpointCreated? {
        PublishedLink(g, env, events, i, IDs.Produces(env.executionId, env.checkpointId(e.number)));
      }
    }
  }

  // ---- What the run's nodes read -------------------------------------------------------------------

  lemma {:induction false} PublishPrefix(env: Surroundings, events: seq<Event>, n: nat)
    requires n <= |events|
    ensures PublishAll(env, events)[..n] == PublishAll(env, events[..n])
  {
  }

  // What the log says last about the run as a whole.
  function RunWord(events: seq<Event>): string {
    if events == [] then "running"
    else
      var e := events[|events| - 1];
      if e.ExecutionCompleted? then "completed" else if e.ExecutionFailed? then "failed" else "running"
  }

  lemma {:induction false} JournaledPrefix(policy: RetryPolicy, events: seq<Event>, n: nat)
    requires Journaled(policy, events) && n <= |events|
    ensures Journaled(policy, events[..n])
  {
    forall k | 0 <= k < n
      ensures Allowed(policy, events[..n][..k], events[..n][k])
    {
      assert events[..n][..k] == events[..k];
    }
  }

  lemma {:induction false} RunMade(policy: RetryPolicy, env: Surroundings, events: seq<Event>)
    requires events != [] && Journaled(policy, events)
    ensures W.MadeIn(PublishAll(env, events), IDs.ExecNode(env.executionId))
  {
    assert Allowed(policy, events[..0], events[0]);
    StepApart(env, 0, events[0], IDs.ExecNode(env.executionId));
    assert PublishAll(env, events)[0] in PublishAll(env, events);
  }

  lemma {:induction false} RunSaid(policy: RetryPolicy, env: Surroundings, events: seq<Event>)
    requires events != [] && Journaled(policy, events)
    ensures W.LastSaid(PublishAll(env, events), IDs.ExecNode(env.executionId), "status")
         == Some(KG.Text(RunWord(events)))
  {
    var n, node := |events| - 1, IDs.ExecNode(env.executionId);
    var before, e := events[..n], events[n];
    var w := Publish(env, n, e);
    assert Allowed(policy, before, e);
    PublishPrefix(env, events, n);
    StepApart(env, n, e, node);
    if n > 0 {
      JournaledPrefix(policy, events, n);
      RunSaid(policy, env, before);
    }
    LastSaidIs(PublishAll(env, events), w, node);
  }

  lemma {:induction false} LastSaidIs(ws: seq<W.Event>, w: W.Event, node: string)
    requires ws != [] && ws[|ws| - 1] == w
    ensures W.LastSaid(ws, node, "status")
         == if W.Makes(w, node) || (W.About(w, node) && W.Says(w, "status").Some?) then W.Says(w, "status")
            else W.LastSaid(ws[..|ws| - 1], node, "status")
  {
  }

  // Only the run's own start and end say anything about its status.
  lemma {:induction false} StepApart(env: Surroundings, k: nat, e: Event, node: string)
    requires node == IDs.ExecNode(env.executionId)
    ensures W.Makes(Publish(env, k, e), node) <==> e.ExecutionStarted?
    ensures W.About(Publish(env, k, e), node) <==> e.ExecutionCompleted? || e.ExecutionFailed?
  {
    assert node[0] == 'e';
    assert forall id :: IDs.StepNode(id)[0] == 's' && IDs.CheckpointNode(id)[0] == 'c';
  }

  // The status a step's node should have.
  function WordText(word: Option<StepState>): Option<KG.Value> {
    match word
    case Some(StepRunning) => Some(KG.Text("running"))
    case Some(StepCompleted) => Some(KG.Text("completed"))
    case Some(StepFailed) => Some(KG.Text("failed"))
    case Some(StepRetrying) => Some(KG.Text("retrying"))
    case _ => None
  }

  lemma {:induction false} StepSaid(env: Surroundings, events: seq<Event>, id: string)
    ensures W.LastSaid(PublishAll(env, events), IDs.StepNode(id), "status") == WordText(StepWord(events, id))
  {
    if events != [] {
      var n := |events| - 1;
      PublishPrefix(env, events, n);
      StepSaid(env, events[..n], id);
      StepEventSays(env, n, events[n], id);
    }
  }

  lemma {:induction false} StepEventSays(env: Surroundings, k: nat, e: Event, id: string)
    ensures var w, node := Publish(env, k, e), IDs.StepNode(id);
      && (W.Makes(w, node) <==> e.StepStartedEvent? && e.stepId == id)
      && (W.About(w, node) <==> (e.StepCompletedEvent? || e.StepFailedEvent? || e.RetryStarted?) && e.stepId == id)
  {
    var node := IDs.StepNode(id);
    assert node[0] == 's' && node[5..] == id;
    assert forall x :: IDs.ExecNode(x)[0] == 'e' && IDs.CheckpointNode(x)[0] == 'c';
    assert forall x :: IDs.StepNode(x)[5..] == x;
  }

  lemma {:induction false} EventsRead(policy: RetryPolicy, env: Surroundings, events: seq<Event>)
    requires events != [] && Journaled(policy, events)
    ensures var g, node := W.WriteAll(KG.EMPTY, PublishAll(env, events)), IDs.ExecNode(env.executionId);
      node in g.nodes && W.Read(g, node, "status") == Some(KG.Text(RunWord(events)))
  {
    RunMade(policy, env, events);
    RunSaid(policy, env, events);
    W.NodesRead(PublishAll(env, events), IDs.ExecNode(env.executionId), "status");
  }

  lemma {:induction false} StepRead(env: Surroundings, events: seq<Event>, id: string)
    ensures var g, node := W.WriteAll(KG.EMPTY, PublishAll(env, events)), IDs.StepNode(id);
      node in g.nodes ==> W.Read(g, node, "status") == WordText(StepWord(events, id))
  {
    StepSaid(env, events, id);
    W.NodesRead(PublishAll(env, events), IDs.StepNode(id), "status");
  }

  // Written into an empty graph, a completed run reads "completed" and a failed one "failed"; any other one, also if
  // it was cancelled, reads "running".
  lemma {:induction false} RunStatusRead(
    cfg: Config, plan: Plan, aborted: bool, ticks: seq<Tick>, env: Surroundings)
    ensures var d := Execute(cfg, Fresh(plan, aborted), ticks).0;
      var g, node := W.WriteAll(KG.EMPTY, PublishAll(env, d.events)), IDs.ExecNode(env.executionId);
      && node in g.nodes
      && W.Read(g, node, "status") == Some(KG.Text(
             if d.machine.status == Completed then "completed"
             else if d.machine.status == Failed then "failed"
             else "running"))
  {
    JournalTheorem(cfg, plan, aborted, ticks);
    LastWords(cfg, plan, aborted, ticks);
    EventsRead(cfg.retryPolicy, env, Execute(cfg, Fresh(plan, aborted), ticks).0.events);
  }

  // A started step reads "completed", or "failed", exactly when that is its state.
  lemma {:induction false} StepStatusRead(
    cfg: Config, plan: Plan, aborted: bool, ticks: seq<Tick>, env: Surroundings, id: string)
    ensures var d := Execute(cfg, Fresh(plan, aborted), ticks).0;
      var g, node := W.WriteAll(KG.EMPTY, PublishAll(env, d.events)), IDs.StepNode(id);
      node in g.nodes ==>
        && (W.Read(g, node, "status") == Some(KG.Text("completed")) <==> d.machine.StateOf(id) == StepCompleted)
        && (W.Read(g, node, "status") == Some(KG.Text("failed")) <==> d.machine.StateOf(id) == StepFailed)
  {
    var d := Execute(cfg, Fresh(plan, aborted), ticks).0;
    LastWords(cfg, plan, aborted, ticks);
    assert WordFits(d, id);
    FittingRead(env, d, id);
  }

  lemma {:induction false} FittingRead(env: Surroundings, d: Context, id: string)
    requires WordFits(d, id)
    ensures var g, node := W.WriteAll(KG.EMPTY, PublishAll(env, d.events)), IDs.StepNode(id);
      node in g.nodes ==>
        && (W.Read(g, node, "status") == Some(KG.Text("completed")) <==> d.machine.StateOf(id) == StepCompleted)
        && (W.Read(g, node, "status") == Some(KG.Text("failed")) <==> d.machine.StateOf(id) == StepFailed)
  {
    StepRead(env, d.events, id);
    WordTexts(StepWord(d.events, id));
  }

  lemma {:induction false} WordTexts(word: Option<StepState>)
    ensures WordText(word) == Some(KG.Text("completed")) <==> word == Some(StepCompleted)
    ensures WordText(word) == Some(KG.Text("failed")) <==> word == Some(StepFailed)
  {
    assert "completed"[0] == 'c' && "failed"[0] == 'f' && "running"[0] == 'r' && "retrying"[0] == 'r';
  }

  // ---- What the last event of a log leaves ---------------------------------------------------------

  lemma {:induction false} LatestRead(env: Surroundings, events: seq<Event>, node: string, key: string)
    requires events != [] && W.IsWritten(node)
    requires var w := Publish(env, |events| - 1, events[|events| - 1]);
      W.Makes(w, node) || (W.About(w, node) && W.Says(w, key).Some?)
    ensures var g := W.WriteAll(KG.EMPTY, PublishAll(env, events));
      node in g.nodes ==> W.Read(g, node, key) == W.Says(Publish(env, |events| - 1, events[|events| - 1]), key)
  {
    W.NodesRead(PublishAll(env, events), node, key);
  }

  // The node, if it is there, reads this number.
  ghost predicate Shows(g: KG.Graph, node: string, key: string, number: nat) {
    node in g.nodes ==> W.Read(g, node, key) == Some(KG.Number(number as real))
  }

  lemma {:induction false} NumberRead(env: Surroundings, events: seq<Event>, node: string, key: string, number: nat)
    requires events != [] && W.IsWritten(node)
    requires var w := Publish(env, |events| - 1, events[|events| - 1]);
      (W.Makes(w, node) || W.About(w, node)) && W.Says(w, key) == Some(KG.Number(number as real))
    ensures Shows(W.WriteAll(KG.EMPTY, PublishAll(env, events)), node, key, number)
  {
    LatestRead(env, events, node, key);
  }

  // The start of a run leaves its plan's size on its node, its completion how far it got and how often it retried.
  lemma {:induction false} StartRead(env: Surroundings, events: seq<Event>)
    requires events != [] && events[|events| - 1].ExecutionStarted?
    ensures Shows(W.WriteAll(KG.EMPTY, PublishAll(env, events)), IDs.ExecNode(env.executionId),
                  "stepCount", events[|events| - 1].stepCount)
  {
    NumberRead(env, events, IDs.ExecNode(env.executionId), "stepCount", events[|events| - 1].stepCount);
  }

  ghost predicate ShowsCounts(g: KG.Graph, node: string, completed: nat, total: nat, retries: nat) {
    && Shows(g, node, "stepsCompleted", completed)
    && Shows(g, node, "totalSteps", total)
    && Shows(g, node, "totalRetries", retries)
  }

  lemma {:induction false} CompletionRead(env: Surroundings, events: seq<Event>)
    requires events != [] && events[|events| - 1].ExecutionCompleted?
    ensures var e := events[|events| - 1];
      ShowsCounts(W.WriteAll(KG.EMPTY, PublishAll(env, events)), IDs.ExecNode(env.executionId),
                  e.stepsCompleted, e.totalSteps, e.totalRetries)
  {
    var e, node := events[|events| - 1], IDs.ExecNode(env.executionId);
    CompletionSays(Publish(env, |events| - 1, e));
    NumberRead(env, events, node, "stepsCompleted", e.stepsCompleted);
    NumberRead(env, events, node, "totalSteps", e.totalSteps);
    NumberRead(env, events, node, "totalRetries", e.totalRetries);
  }

  lemma {:induction false} CompletionSays(w: W.Event)
    requires w.ExecutionCompleted?
    ensures W.Says(w, "stepsCompleted") == Some(KG.Number(w.stepsCompleted as real))
    ensures W.Says(w, "totalSteps") == Some(KG.Number(w.totalSteps as real))
    ensures W.Says(w, "totalRetries") == Some(KG.Number(w.totalRetries as real))
  {
  }

  // A step's start leaves its index on its node, and a checkpoint the number of completed steps on its own.
  lemma {:induction false} StepStartRead(env: Surroundings, events: seq<Event>)
    requires events != [] && events[|events| - 1].StepStartedEvent?
    ensures var e := events[|events| - 1];
      Shows(W.WriteAll(KG.EMPTY, PublishAll(env, events)), IDs.StepNode(e.stepId), "stepIndex", e.stepIndex)
  {
    var e := events[|events| - 1];
    NumberRead(env, events, IDs.StepNode(e.stepId), "stepIndex", e.stepIndex);
  }

  lemma {:induction false} CheckpointRead(env: Surroundings, events: seq<Event>)
    requires events != [] && events[|events| - 1].CheckpointCreated?
    ensures var e := events[|events| - 1];
      Shows(W.WriteAll(KG.EMPTY, PublishAll(env, events)), IDs.CheckpointNode(env.checkpointId(e.number)),
            "completedSteps", e.completedSteps)
  {
    var e := events[|events| - 1];
    NumberRead(env, events, IDs.CheckpointNode(env.checkpointId(e.number)), "completedSteps", e.completedSteps);
  }

  // A retry leaves its number and its delay on the step's node.
  lemma {:induction false} RetryRead(env: Surroundings, events: seq<Event>)
    requires events != [] && events[|events| - 1].RetryStarted?
    ensures var g, e := W.WriteAll(KG.EMPTY, PublishAll(env, events)), events[|events| - 1];
      && Shows(g, IDs.StepNode(e.stepId), "retryAttempt", e.attempt)
      && (IDs.StepNode(e.stepId) in g.nodes ==>
            W.Read(g, IDs.StepNode(e.stepId), "retryDelayMs") == Some(KG.Number(e.delayMs)))
  {
    var e := events[|events| - 1];
    RetrySays(Publish(env, |events| - 1, e));
    NumberRead(env, events, IDs.StepNode(e.stepId), "retryAttempt", e.attempt);
    LatestRead(env, events, IDs.StepNode(e.stepId), "retryDelayMs");
  }

  lemma {:induction false} RetrySays(w: W.Event)
    requires w.RetryStarted?
    ensures W.Says(w, "retryAttempt") == Some(KG.Number(w.attempt as real))
    ensures W.Says(w, "retryDelayMs") == Some(KG.Number(w.delayMs))
  {
  }

  // A failure leaves its code and its message there.
  lemma {:induction false} FailureRead(env: Surroundings, events: seq<Event>)
    requires events != [] && events[|events| - 1].StepFailedEvent?
    ensures var g, e := W.WriteAll(KG.EMPTY, PublishAll(env, events)), events[|events| - 1];
      IDs.StepNode(e.stepId) in g.nodes ==>
        && W.Read(g, IDs.StepNode(e.stepId), "error") == Some(KG.Text(env.message(|events| - 1)))
        && W.Read(g, IDs.StepNode(e.stepId), "errorCode")
           == Some(if e.errorCode.Some? then KG.Text(e.errorCode.value) else KG.Undefined)
  {
    var node := IDs.StepNode(events[|events| - 1].stepId);
    FailureSays(Publish(env, |events| - 1, events[|events| - 1]));
    LatestRead(env, events, node, "error");
    LatestRead(env, events, node, "errorCode");
  }

  lemma {:induction false} FailureSays(w: W.Event)
    requires w.StepFailed?
    ensures W.Says(w, "error") == Some(KG.Text(w.error))
    ensures W.Says(w, "errorCode") == Some(if w.errorCode.Some? then KG.Text(w.errorCode.value) else KG.Undefined)
  {
  }

  // ---- How a run ends ---------------------------------------------------------------------------

  // A completed run's node reads how far the run got and how often it retried; a failed one's names the step.
  ghost predicate EndShown(env: Surroundings, g: KG.Graph, d: Context) {
    var node := IDs.ExecNode(env.executionId);
    && node in g.nodes
    && (d.machine.status == Completed ==>
          ShowsCounts(g, node, |Successes(d.results)|, |d.Steps()|, SumAttempts(d.attempts)))
    && (d.machine.status == Failed && d.CurrentStep().Some? ==>
          W.Read(g, node, "failedStep") == Some(KG.Text(d.CurrentStep().value.id)))
  }

  lemma {:induction false} CompletedShown(env: Surroundings, d: Context)
    requires ClosedBy(d) && d.machine.status == Completed
    ensures ShowsCounts(W.WriteAll(KG.EMPTY, PublishAll(env, d.events)), IDs.ExecNode(env.executionId),
                        |Successes(d.results)|, |d.Steps()|, SumAttempts(d.attempts))
  {
    CompletionRead(env, d.events);
  }

  lemma {:induction false} FailedShown(env: Surroundings, d: Context)
    requires ClosedBy(d) && d.machine.status == Failed && d.CurrentStep().Some?
    ensures var g, node := W.WriteAll(KG.EMPTY, PublishAll(env, d.events)), IDs.ExecNode(env.executionId);
      node in g.nodes ==> W.Read(g, node, "failedStep") == Some(KG.Text(d.CurrentStep().value.id))
  {
    LatestRead(env, d.events, IDs.ExecNode(env.executionId), "failedStep");
  }

  lemma {:induction false} EndRead(policy: RetryPolicy, env: Surroundings, d: Context, g: KG.Graph)
    requires ClosedBy(d) && d.events != [] && Journaled(policy, d.events)
    requires g == W.WriteAll(KG.EMPTY, PublishAll(env, d.events))
    ensures EndShown(env, g, d)
  {
    EventsRead(policy, env, d.events);
    if d.machine.status == Completed {
      CompletedShown(env, d);
    } else if d.machine.status == Failed && d.CurrentStep().Some? {
      FailedShown(env, d);
    }
  }

  lemma {:induction false} RunEndRead(cfg: Config, plan: Plan, aborted: bool, ticks: seq<Tick>, env: Surroundings)
    ensures var d := Execute(cfg, Fresh(plan, aborted), ticks).0;
      EndShown(env, W.WriteAll(KG.EMPTY, PublishAll(env, d.events)), d)
  {
    var d := Execute(cfg, Fresh(plan, aborted), ticks).0;
    JournalTheorem(cfg, plan, aborted, ticks);
    ClosingEvent(cfg, plan, aborted, ticks);
    EndRead(cfg.retryPolicy, env, d, W.WriteAll(KG.EMPTY, PublishAll(env, d.events)));
  }
}
