// The execution loop as a function: what one run does to the context, given what happens
// at each `await`.  A run consumes one tick per await; when the ticks run out it is suspended,
// so the runs over all tick sequences are exactly the finite prefixes of real executions.
module ExecutionRun {
  import opened Basics
  import opened Plans
  import opened ExecutionState
  import opened ExecutionHistory
  import opened ExecutionCheckpoint
  import opened ExecutionRetry

  datatype Config = Config(retryPolicy: RetryPolicy, enableCheckpoints: bool, canReplan: bool)

  datatype Event =
    | ExecutionStarted(stepCount: nat)
    | StepStartedEvent(stepId: string, stepIndex: nat)
    | CheckpointCreated(number: nat, completedSteps: nat)
    | StepCompletedEvent(stepId: string)
    | Progress(stepId: string, completedSteps: nat, totalSteps: nat)
    | StepFailedEvent(stepId: string, errorCode: Option<string>)
    | RetryStarted(stepId: string, attempt: nat, delayMs: real)
    | ExecutionCompleted(stepsCompleted: nat, totalSteps: nat, totalRetries: nat)
    | ExecutionFailed(failedStep: Option<string>)
    | ExecutionCancelled(stepsCompleted: nat)
    | ExecutionPaused
    | ExecutionResumed

  datatype Context = Context(
    machine: Machine,
    history: Log,
    attempts: map<string, nat>,
    plan: Option<Plan>,
    index: nat,
    results: seq<StepResult>,
    checkpoints: seq<Checkpoint>,
    aborted: bool,
    events: seq<Event>)
  {
    function Steps(): seq<PlanStep> {
      if plan.Some? then plan.value.steps else []
    }

    function CurrentStep(): Option<PlanStep> {
      if index < |Steps()| then Some(Steps()[index]) else None
    }

    function CompletedCount(): nat {
      |Successes(results)|
    }

    function Emit(e: Event): Context {
      this.(events := events + [e])
    }
  }

  // What the environment can do while the loop waits.
  datatype Action = Pause | Resume | Cancel | Abort

  // The executor's answer, and the planner's when replanning.
  datatype Answer = Answered(success: bool, errorCode: Option<string>, effort: Effort) | Threw

  datatype Replan = NewPlan(plan: Plan) | ReplanThrew

  datatype Tick = Tick(actions: seq<Action>, answer: Answer, replan: Replan)

  datatype Fault = SignalAborted | IllegalTransition | RetriesExhausted(attempts: nat) | StepFault

  datatype Flow = Continue | Break | Throw(fault: Fault) | Starved

  datatype Outcome = Returned | Rejected | Suspended

  // ---- Environment ---------------------------------------------------------

  function Act(c: Context, a: Action): Context {
    match a
    case Pause =>
      if c.machine.status == Running then c.(machine := c.machine.Move(Paused)).Emit(ExecutionPaused) else c
    case Resume =>
      if c.machine.status == Paused then c.(machine := c.machine.Move(Running)).Emit(ExecutionResumed) else c
    case Cancel =>
      if IsTerminal(c.machine.status) then c
      else
        c.(machine := c.machine.Move(Cancelled), history := c.history.Add(Finished(Cancelled)))
        .Emit(ExecutionCancelled(c.CompletedCount()))
    case Abort => c.(aborted := true)
  }

  function ActAll(c: Context, actions: seq<Action>): Context
    decreases |actions|
  {
    if actions == [] then c else ActAll(Act(c, actions[0]), actions[1..])
  }

  // ---- Context operations ----------------------------------------------------

  function SetPlan(c: Context, p: Plan): Context {
    c.(plan := Some(p),
       checkpoints := c.checkpoints
         + if p.steps == [] then [] else [InitialCheckpoint(|c.checkpoints|, Ids(p.steps))])
  }

  ghost function StepCheckpoint(c: Context, stepId: string): Checkpoint {
    var completed := Successes(c.results);
    Checkpoint(
      |c.checkpoints|, stepId, completed, Remaining(Ids(c.Steps()), completed, stepId),
      c.machine.status, c.history.Tally())
  }

  function ResultOf(id: string, a: Answer): StepResult {
    match a
    case Answered(success, code, effort) => StepResult(id, success, code, effort)
    case Threw => StepResult(id, false, Some("STEP_EXECUTION_ERROR"), NO_EFFORT)
  }

  // Store a step's result, log it and take a checkpoint.
  ghost function Record(cfg: Config, c: Context, r: StepResult): Context {
    var c1 := c.(results := c.results + [r], history := c.history.Record(r));
    if cfg.enableCheckpoints then
      var k := StepCheckpoint(c1, r.stepId);
      c1.(checkpoints := c1.checkpoints + [k]).Emit(CheckpointCreated(k.number, c1.CompletedCount()))
    else c1
  }

  // ---- One iteration ---------------------------------------------------------

  datatype Stage = Stage(c: Context, flow: Flow, ticks: seq<Tick>)

  // Poll until the execution is no longer paused.
  function WaitForResume(c: Context, ticks: seq<Tick>): (s: Stage)
    ensures |s.ticks| <= |ticks|
    decreases |ticks|
  {
    if c.machine.status != Paused then Stage(c, Continue, ticks)
    else if ticks == [] then Stage(c, Starved, ticks)
    else WaitForResume(ActAll(c, ticks[0].actions), ticks[1..])
  }

  // The success branch: the step is completed and the index moves on.
  function Succeed(c: Context, id: string, ticks: seq<Tick>): Stage {
    if !c.machine.CanStep(id, StepCompleted) then Stage(c, Throw(IllegalTransition), ticks)
    else
      var c1 := c.(machine := c.machine.Step(id, StepCompleted), index := c.index + 1)
                .Emit(StepCompletedEvent(id)).Emit(Progress(id, c.CompletedCount(), |c.Steps()|));
      Stage(c1, if c1.index < |c1.Steps()| then Continue else Break, ticks)
  }

  // A retry: count it, give up when exhausted, otherwise sleep and run the step again.
  function Retry(cfg: Config, c: Context, id: string, ticks: seq<Tick>): Stage {
    var attempt := AttemptsOf(c.attempts, id) + 1;
    var c1 := c.(attempts := c.attempts[id := attempt]);
    if attempt >= cfg.retryPolicy.maxAttempts then Stage(c1, Throw(RetriesExhausted(attempt)), ticks)
    else
      var c2 := c1.Emit(RetryStarted(id, attempt, RetryDelay(attempt, cfg.retryPolicy)));
      if !c2.machine.CanStep(id, StepRetrying) then Stage(c2, Throw(IllegalTransition), ticks)
      else
        var c3 := c2.(machine := c2.machine.Step(id, StepRetrying));
        if ticks == [] then Stage(c3, Starved, ticks)
        else
          var c4 := ActAll(c3, ticks[0].actions);
          if !c4.machine.CanStep(id, StepRunning) then Stage(c4, Throw(IllegalTransition), ticks[1..])
          else Stage(c4.(machine := c4.machine.Step(id, StepRunning)), Continue, ticks[1..])
  }

  // Ask for a new plan.  The step index is kept.
  function RequestReplan(c: Context, id: string, ticks: seq<Tick>): Stage {
    var c1 := c.(history := c.history.Add(ReplanRequested(id)));
    if !c1.machine.CanMove(Replanning) then Stage(c1, Throw(IllegalTransition), ticks)
    else
      var c2 := c1.(machine := c1.machine.Move(Replanning));
      if ticks == [] then Stage(c2, Starved, ticks)
      else
        var c3 := ActAll(c2, ticks[0].actions);
        match ticks[0].replan
        case ReplanThrew => Stage(c3, Throw(StepFault), ticks[1..])
        case NewPlan(p) =>
          var c4 := SetPlan(c3, p);
          if c4.machine.CanMove(Running) then Stage(c4.(machine := c4.machine.Move(Running)), Continue, ticks[1..])
          else Stage(c4, Throw(StepFault), ticks[1..])
  }

  function Fail(cfg: Config, c: Context, r: StepResult, ticks: seq<Tick>): Stage {
    if !c.machine.CanStep(r.stepId, StepFailed) then Stage(c, Throw(IllegalTransition), ticks)
    else
      var c1 := c.(machine := c.machine.Step(r.stepId, StepFailed)).Emit(StepFailedEvent(r.stepId, r.errorCode));
      if ShouldRetry(c1.attempts, cfg.retryPolicy, r.stepId, r.errorCode) then Retry(cfg, c1, r.stepId, ticks)
      else if cfg.canReplan then RequestReplan(c1, r.stepId, ticks)
      else Stage(c1, Throw(StepFault), ticks)
  }

  // Mark the step running unless a retry left it so, and announce it.
  function Begin(c: Context, id: string): (s: Stage) {
    if c.machine.StateOf(id) != StepRunning && !c.machine.CanStep(id, StepRunning) then
      Stage(c, Throw(IllegalTransition), [])
    else
      Stage(c.(machine := c.machine.Step(id, StepRunning)).Emit(StepStartedEvent(id, c.index)), Continue, [])
  }

  ghost function RunStep(cfg: Config, c: Context, id: string, ticks: seq<Tick>): (s: Stage)
    ensures s.flow == Continue ==> |s.ticks| < |ticks|
  {
    var begun := Begin(c, id);
    if begun.flow != Continue then begun.(ticks := ticks)
    else if ticks == [] then Stage(begun.c, Starved, ticks)
    else
      var r := ResultOf(id, ticks[0].answer);
      var c1 := Record(cfg, ActAll(begun.c, ticks[0].actions), r);
      if r.success then Succeed(c1, id, ticks[1..]) else Fail(cfg, c1, r, ticks[1..])
  }

  ghost function Iterate(cfg: Config, c: Context, ticks: seq<Tick>): (s: Stage)
    ensures s.flow == Continue ==> |s.ticks| < |ticks|
  {
    if c.aborted then Stage(c, Throw(SignalAborted), ticks)
    else
      var w := WaitForResume(c, ticks);
      if w.flow == Starved then w
      else if w.c.CurrentStep().None? then w.(flow := Break)
      else RunStep(cfg, w.c, w.c.CurrentStep().value.id, w.ticks)
  }

  // ---- The whole run ---------------------------------------------------------

  // The catch block.  A fault raised here escapes to the caller.
  function Catch(c: Context, f: Fault): (Context, Outcome) {
    if f == SignalAborted || c.machine.status == Cancelled then
      if c.machine.status != Cancelled && !c.machine.CanMove(Cancelled) then (c, Rejected)
      else
        (c.(machine := c.machine.Move(Cancelled), history := c.history.Add(Finished(Cancelled)))
         .Emit(ExecutionCancelled(c.CompletedCount())), Returned)
    else if c.machine.status != Failed && !c.machine.CanMove(Failed) then (c, Rejected)
    else
      (c.(machine := c.machine.Move(Failed), history := c.history.Add(Finished(Failed)))
       .Emit(ExecutionFailed(if c.CurrentStep().Some? then Some(c.CurrentStep().value.id) else None)), Returned)
  }

  // What follows the loop when it ends without a fault.
  ghost function Finish(c: Context): (Context, Outcome) {
    if c.machine.status == Cancelled then (c, Returned)
    else if !c.machine.CanMove(Completed) then Catch(c, IllegalTransition)
    else
      (c.(machine := c.machine.Move(Completed), history := c.history.Add(Finished(Completed)))
       .Emit(ExecutionCompleted(c.CompletedCount(), |c.Steps()|, SumAttempts(c.attempts))), Returned)
  }

  ghost function Settle(s: Stage): (Context, Outcome)
    requires s.flow != Continue
  {
    match s.flow
    case Break => Finish(s.c)
    case Throw(f) => Catch(s.c, f)
    case Starved => (s.c, Suspended)
  }

  // The stage in which the loop ends.
  ghost function LoopEnd(cfg: Config, c: Context, ticks: seq<Tick>): (s: Stage)
    ensures s.flow != Continue
    decreases |ticks|
  {
    var s := Iterate(cfg, c, ticks);
    if s.flow == Continue then LoopEnd(cfg, s.c, s.ticks) else s
  }

  function Start(c: Context): Context {
    c.(machine := c.machine.Move(Running), history := c.history.Add(Started)).Emit(ExecutionStarted(|c.Steps()|))
  }

  ghost function Execute(cfg: Config, c: Context, ticks: seq<Tick>): (Context, Outcome) {
    if c.plan.None? then (c, Rejected)
    else if !c.machine.CanMove(Running) then (c.(history := c.history.Add(Started)), Rejected)
    else Settle(LoopEnd(cfg, Start(c), ticks))
  }

  // A context straight from its constructor, with its first plan set.
  function Fresh(plan: Plan, aborted: bool): Context {
    SetPlan(Context(INITIAL, NO_HISTORY, map[], None, 0, [], [], aborted, []), plan)
  }
}
