// The stages of one iteration, one at a time.
module ExecutionStages {
  import opened ExecutionState
  import opened ExecutionHistory
  import opened ExecutionRetry
  import opened ExecutionRun
  import opened ExecutionAccounting

  // The rest of an iteration once the answer is recorded.
  ghost function AfterAnswer(cfg: Config, c: Context, r: StepResult, ticks: seq<Tick>): Stage {
    if r.success then Succeed(c, r.stepId, ticks) else Fail(cfg, c, r, ticks)
  }

  lemma {:induction false} RunStepIs(cfg: Config, c: Context, id: string, ticks: seq<Tick>)
    requires Begin(c, id).flow == Continue && ticks != []
    ensures var r := ResultOf(id, ticks[0].answer);
      RunStep(cfg, c, id, ticks)
      == AfterAnswer(cfg, Record(cfg, ActAll(Begin(c, id).c, ticks[0].actions), r), r, ticks[1..])
  {
  }

  // What follows the announcement of the failure.
  function AfterFailure(cfg: Config, c: Context, r: StepResult, ticks: seq<Tick>): Stage {
    if ShouldRetry(c.attempts, cfg.retryPolicy, r.stepId, r.errorCode) then Retry(cfg, c, r.stepId, ticks)
    else if cfg.canReplan then RequestReplan(c, r.stepId, ticks)
    else Stage(c, Throw(StepFault), ticks)
  }

  lemma {:induction false} FailIs(cfg: Config, c: Context, r: StepResult, ticks: seq<Tick>)
    requires c.machine.StateOf(r.stepId) == StepRunning
    ensures var d := c.(machine := c.machine.Step(r.stepId, StepFailed)).Emit(StepFailedEvent(r.stepId, r.errorCode));
      Fail(cfg, c, r, ticks) == AfterFailure(cfg, d, r, ticks)
  {
  }

  // The retry sleeps, and then runs the step again, whatever happened meanwhile.
  lemma {:induction false} RetryIs(cfg: Config, c: Context, id: string, ticks: seq<Tick>)
    requires c.machine.StateOf(id) == StepFailed && AttemptsOf(c.attempts, id) + 1 < cfg.retryPolicy.maxAttempts
    ensures var slept := Sleeping(cfg, c, id);
      && (ticks == [] ==> Retry(cfg, c, id, ticks) == Stage(slept, Starved, ticks))
      && (ticks != [] ==>
            var woken := ActAll(slept, ticks[0].actions);
            Retry(cfg, c, id, ticks)
            == Stage(woken.(machine := woken.machine.Step(id, StepRunning)), Continue, ticks[1..]))
  {
    if ticks != [] {
      ActAllKeepsBooks(Sleeping(cfg, c, id), ticks[0].actions);
    }
  }

  // What follows the planner's answer.
  function Replanned(c: Context, replan: Replan, rest: seq<Tick>): Stage {
    match replan
    case ReplanThrew => Stage(c, Throw(StepFault), rest)
    case NewPlan(p) =>
      var d := SetPlan(c, p);
      if d.machine.CanMove(Running) then Stage(d.(machine := d.machine.Move(Running)), Continue, rest)
      else Stage(d, Throw(StepFault), rest)
  }

  lemma {:induction false} ReplanIs(c: Context, id: string, ticks: seq<Tick>)
    requires c.machine.status == Running && ticks != []
    ensures var asked := c.(history := c.history.Add(ReplanRequested(id)));
      RequestReplan(c, id, ticks)
      == Replanned(ActAll(asked.(machine := asked.machine.Move(Replanning)), ticks[0].actions), ticks[0].replan,
                   ticks[1..])
  {
  }
}
