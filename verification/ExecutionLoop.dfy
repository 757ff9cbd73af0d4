// The execution loop and its context as the mutable objects they are, proved to do
// exactly what ExecutionRun says.
module ExecutionLoop {
  import opened Basics
  import opened Plans
  import opened ExecutionState
  import opened ExecutionHistory
  import opened ExecutionCheckpoint
  import opened ExecutionRetry
  import opened ExecutionRun

  class ExecutionContext {
    const config: Config
    const stateMachine: ExecutionStateMachine
    const history: History
    const retryManager: RetryManager
    var plan: Option<Plan>
    var currentStepIndex: nat
    var stepResults: seq<StepResult>
    var checkpoints: seq<Checkpoint>
    var aborted: bool

    constructor (config: Config, aborted: bool)
      ensures Valid() && fresh(stateMachine) && fresh(history) && fresh(retryManager)
      ensures this.config == config && this.aborted == aborted
      ensures plan == None && currentStepIndex == 0 && stepResults == [] && checkpoints == []
      ensures stateMachine.Value() == INITIAL && history.Value() == NO_HISTORY && retryManager.Attempts() == map[]
    {
      this.config := config;
      this.aborted := aborted;
      stateMachine := new ExecutionStateMachine();
      history := new History();
      retryManager := new RetryManager(config.retryPolicy);
      plan, currentStepIndex, stepResults, checkpoints := None, 0, [], [];
    }

    predicate Valid() {
      retryManager.policy == config.retryPolicy
    }

    function Steps(): seq<PlanStep>
      reads this
    {
      if plan.Some? then plan.value.steps else []
    }

    function CurrentStep(): Option<PlanStep>
      reads this
    {
      if currentStepIndex < |Steps()| then Some(Steps()[currentStepIndex]) else None
    }

    method SetPlan(p: Plan)
      modifies this`plan, this`checkpoints
      ensures plan == Some(p)
      ensures checkpoints == old(checkpoints)
        + if p.steps == [] then [] else [InitialCheckpoint(|old(checkpoints)|, Ids(p.steps))]
    {
      plan := Some(p);
      var ids := Ids(p.steps);
      if |ids| > 0 {
        checkpoints := checkpoints + [InitialCheckpoint(|checkpoints|, ids)];
      }
    }

    method NextStep() returns (more: bool)
      modifies this`currentStepIndex
      ensures currentStepIndex == old(currentStepIndex) + if plan.Some? then 1 else 0
      ensures more <==> currentStepIndex < |Steps()|
    {
      if plan.None? {
        return false;
      }
      currentStepIndex := currentStepIndex + 1;
      more := currentStepIndex < |plan.value.steps|;
    }
  }

  class ExecutionLoop {
    // The events handed to the registered handlers.
    var emitted: seq<Event>

    constructor ()
      ensures emitted == []
    {
      emitted := [];
    }

    // The loop's view of a context, as the value ExecutionRun works on.
    function View(c: ExecutionContext): Context
      reads this, c, c.stateMachine, c.history, c.retryManager
    {
      Context(c.stateMachine.Value(), c.history.Value(), c.retryManager.Attempts(), c.plan, c.currentStepIndex,
              c.stepResults, c.checkpoints, c.aborted, emitted)
    }

    method Emit(e: Event)
      modifies this
      ensures emitted == old(emitted) + [e]
    {
      emitted := emitted + [e];
    }

    method Pause(c: ExecutionContext)
      modifies this, c.stateMachine
      ensures View(c) == Act(old(View(c)), Action.Pause)
    {
      if c.stateMachine.currentStatus == Running {
        var ok := c.stateMachine.Transition(Paused);
        Emit(ExecutionPaused);
      }
    }

    method Resume(c: ExecutionContext)
      modifies this, c.stateMachine
      ensures View(c) == Act(old(View(c)), Action.Resume)
    {
      if c.stateMachine.currentStatus == Paused {
        var ok := c.stateMachine.Transition(Running);
        Emit(ExecutionResumed);
      }
    }

    method Cancel(c: ExecutionContext)
      modifies this, c.stateMachine, c.history
      ensures View(c) == Act(old(View(c)), Action.Cancel)
    {
      if !IsTerminal(c.stateMachine.currentStatus) {
        var ok := c.stateMachine.Transition(Cancelled);
        Emit(ExecutionCancelled(|Successes(c.stepResults)|));
        c.history.AddEntry(Finished(Cancelled));
      }
    }

    // An await: whatever the environment does before the promise settles.
    method Await(c: ExecutionContext, actions: seq<Action>)
      modifies this, c, c.stateMachine, c.history
      ensures View(c) == ActAll(old(View(c)), actions)
    {
      var i := 0;
      while i < |actions|
        invariant i <= |actions|
        invariant ActAll(View(c), actions[i..]) == ActAll(old(View(c)), actions)
      {
        match actions[i] {
          case Pause => Pause(c);
          case Resume => Resume(c);
          case Cancel => Cancel(c);
          case Abort => c.aborted := true;
        }
        assert actions[i..][1..] == actions[i + 1..];
        i := i + 1;
      }
    }

    method WaitForResume(c: ExecutionContext, ticks: seq<Tick>) returns (flow: Flow, rest: seq<Tick>)
      modifies this, c, c.stateMachine, c.history
      ensures Stage(View(c), flow, rest) == ExecutionRun.WaitForResume(old(View(c)), ticks)
    {
      rest := ticks;
      while c.stateMachine.currentStatus == Paused
        invariant ExecutionRun.WaitForResume(View(c), rest) == ExecutionRun.WaitForResume(old(View(c)), ticks)
        decreases |rest|
      {
        if rest == [] {
          return Starved, rest;
        }
        Await(c, rest[0].actions);
        rest := rest[1..];
      }
      flow := Continue;
    }

    method RecordResult(c: ExecutionContext, r: StepResult)
      modifies this, c, c.history
      ensures View(c) == Record(c.config, old(View(c)), r)
    {
      c.stepResults := c.stepResults + [r];
      c.history.StepCompleted(r);
      if c.config.enableCheckpoints {
        var completed := Successes(c.stepResults);
        var remaining := Remaining(Ids(c.Steps()), completed, r.stepId);
        var statistics := c.history.GetStatistics();
        var k := Checkpoint(|c.checkpoints|, r.stepId, completed, remaining, c.stateMachine.currentStatus, statistics);
        c.checkpoints := c.checkpoints + [k];
        Emit(CheckpointCreated(k.number, |completed|));
      }
    }

    method SucceedStep(c: ExecutionContext, id: string, ticks: seq<Tick>) returns (flow: Flow, rest: seq<Tick>)
      requires c.CurrentStep().Some?
      modifies this, c, c.stateMachine
      ensures Stage(View(c), flow, rest) == Succeed(old(View(c)), id, ticks)
    {
      rest := ticks;
      var ok := c.stateMachine.SetStepState(id, StepCompleted);
      if !ok {
        return Throw(IllegalTransition), rest;
      }
      Emit(StepCompletedEvent(id));
      Emit(Progress(id, |Successes(c.stepResults)|, |c.Steps()|));
      var more := c.NextStep();
      flow := if more then Continue else Break;
    }

    method RetryStep(c: ExecutionContext, id: string, ticks: seq<Tick>) returns (flow: Flow, rest: seq<Tick>)
      requires c.Valid()
      modifies this, c, c.stateMachine, c.history, c.retryManager
      ensures Stage(View(c), flow, rest) == Retry(c.config, old(View(c)), id, ticks)
    {
      rest := ticks;
      var delayMs, attempt, exhausted := c.retryManager.RecordAttempt(id);
      if exhausted {
        return Throw(RetriesExhausted(attempt)), rest;
      }
      Emit(RetryStarted(id, attempt, delayMs));
      var ok := c.stateMachine.SetStepState(id, StepRetrying);
      if !ok {
        return Throw(IllegalTransition), rest;
      }
      if rest == [] {
        return Starved, rest;
      }
      Await(c, rest[0].actions);
      rest := rest[1..];
      ok := c.stateMachine.SetStepState(id, StepRunning);
      flow := if ok then Continue else Throw(IllegalTransition);
    }

    method ReplanStep(c: ExecutionContext, id: string, ticks: seq<Tick>) returns (flow: Flow, rest: seq<Tick>)
      modifies this, c, c.stateMachine, c.history
      ensures Stage(View(c), flow, rest) == RequestReplan(old(View(c)), id, ticks)
    {
      rest := ticks;
      c.history.AddEntry(ReplanRequested(id));
      var ok := c.stateMachine.Transition(Replanning);
      if !ok {
        return Throw(IllegalTransition), rest;
      }
      if rest == [] {
        return Starved, rest;
      }
      Await(c, rest[0].actions);
      var answer := rest[0].replan;
      rest := rest[1..];
      flow := Throw(StepFault);
      if answer.NewPlan? {
        c.SetPlan(answer.plan);
        ok := c.stateMachine.Transition(Running);
        if ok {
          flow := Continue;
        }
      }
    }

    method FailStep(c: ExecutionContext, r: StepResult, ticks: seq<Tick>) returns (flow: Flow, rest: seq<Tick>)
      requires c.Valid()
      modifies this, c, c.stateMachine, c.history, c.retryManager
      ensures Stage(View(c), flow, rest) == Fail(c.config, old(View(c)), r, ticks)
    {
      rest := ticks;
      var ok := c.stateMachine.SetStepState(r.stepId, StepFailed);
      if !ok {
        return Throw(IllegalTransition), rest;
      }
      Emit(StepFailedEvent(r.stepId, r.errorCode));
      if ShouldRetry(c.retryManager.Attempts(), c.config.retryPolicy, r.stepId, r.errorCode) {
        flow, rest := RetryStep(c, r.stepId, ticks);
      } else if c.config.canReplan {
        flow, rest := ReplanStep(c, r.stepId, ticks);
      } else {
        flow := Throw(StepFault);
      }
    }

    method ExecuteStep(c: ExecutionContext, ticks: seq<Tick>) returns (flow: Flow, rest: seq<Tick>)
      requires c.Valid() && c.CurrentStep().Some?
      modifies this, c, c.stateMachine, c.history, c.retryManager
      ensures Stage(View(c), flow, rest)
           == RunStep(c.config, old(View(c)), old(c.CurrentStep().value.id), ticks)
    {
      rest := ticks;
      var id := c.CurrentStep().value.id;
      var state := c.stateMachine.Value().StateOf(id);
      if state != StepRunning {
        var ok := c.stateMachine.SetStepState(id, StepRunning);
        if !ok {
          return Throw(IllegalTransition), rest;
        }
      }
      Emit(StepStartedEvent(id, c.currentStepIndex));
      assert View(c) == Begin(old(View(c)), id).c;
      if rest == [] {
        return Starved, rest;
      }
      Await(c, rest[0].actions);
      var r := ResultOf(id, rest[0].answer);
      rest := rest[1..];
      StillThere(old(View(c)), id, ticks[0].actions);
      RecordResult(c, r);
      if r.success {
        flow, rest := SucceedStep(c, id, rest);
      } else {
        flow, rest := FailStep(c, r, rest);
      }
    }

    // The environment does not move the loop to another step.
    lemma {:induction false} ActAllKeepsStep(c: Context, actions: seq<Action>)
      ensures ActAll(c, actions).plan == c.plan && ActAll(c, actions).index == c.index
      decreases |actions|
    {
      if actions != [] {
        ActAllKeepsStep(Act(c, actions[0]), actions[1..]);
      }
    }

    lemma {:induction false} StillThere(c: Context, id: string, actions: seq<Action>)
      ensures ActAll(Begin(c, id).c, actions).CurrentStep() == c.CurrentStep()
    {
      ActAllKeepsStep(Begin(c, id).c, actions);
    }

    method Iteration(c: ExecutionContext, ticks: seq<Tick>) returns (flow: Flow, rest: seq<Tick>)
      requires c.Valid()
      modifies this, c, c.stateMachine, c.history, c.retryManager
      ensures Stage(View(c), flow, rest) == Iterate(c.config, old(View(c)), ticks)
      ensures flow == Continue ==> |rest| < |ticks|
    {
      if c.aborted {
        return Throw(SignalAborted), ticks;
      }
      flow, rest := WaitForResume(c, ticks);
      if flow == Starved {
        return;
      }
      var step := c.CurrentStep();
      if step.None? {
        return Break, rest;
      }
      flow, rest := ExecuteStep(c, rest);
    }

    // The catch block.
    method HandleFault(c: ExecutionContext, fault: Fault) returns (outcome: Outcome)
      modifies this, c.stateMachine, c.history
      ensures (View(c), outcome) == Catch(old(View(c)), fault)
    {
      if fault == SignalAborted || c.stateMachine.currentStatus == Cancelled {
        if c.stateMachine.currentStatus != Cancelled {
          var ok := c.stateMachine.Transition(Cancelled);
          if !ok {
            return Rejected;
          }
        }
        Emit(ExecutionCancelled(|Successes(c.stepResults)|));
        c.history.AddEntry(Finished(Cancelled));
        return Returned;
      }
      if c.stateMachine.currentStatus != Failed {
        var ok := c.stateMachine.Transition(Failed);
        if !ok {
          return Rejected;
        }
      }
      var step := c.CurrentStep();
      Emit(ExecutionFailed(if step.Some? then Some(step.value.id) else None));
      c.history.AddEntry(Finished(Failed));
      return Returned;
    }

    // What follows the loop.
    method Conclude(c: ExecutionContext) returns (outcome: Outcome)
      modifies this, c.stateMachine, c.history
      ensures (View(c), outcome) == Finish(old(View(c)))
    {
      if c.stateMachine.currentStatus == Cancelled {
        return Returned;
      }
      var ok := c.stateMachine.Transition(Completed);
      if !ok {
        outcome := HandleFault(c, IllegalTransition);
        return;
      }
      var retries := c.retryManager.GetTotalAttempts();
      Emit(ExecutionCompleted(|Successes(c.stepResults)|, |c.Steps()|, retries));
      c.history.AddEntry(Finished(Completed));
      return Returned;
    }

    // The `while (hasMore)` loop, up to where it falls through or throws.
    method RunSteps(c: ExecutionContext, ticks: seq<Tick>) returns (flow: Flow, rest: seq<Tick>)
      requires c.Valid()
      modifies this, c, c.stateMachine, c.history, c.retryManager
      ensures Stage(View(c), flow, rest) == LoopEnd(c.config, old(View(c)), ticks)
    {
      flow, rest := Continue, ticks;
      ghost var goal := LoopEnd(c.config, View(c), ticks);
      ghost var now := Stage(View(c), flow, rest);
      while flow == Continue
        invariant now == Stage(View(c), flow, rest)
        invariant goal == EndOf(c.config, now)
        decreases if flow == Continue then |rest| + 1 else 0
      {
        flow, rest := Iteration(c, rest);
        EndUnfolds(c.config, now);
        now := Stage(View(c), flow, rest);
      }
    }

    // The stage in which a loop ends that has got as far as s.
    static ghost function EndOf(cfg: Config, s: Stage): Stage {
      if s.flow == Continue then LoopEnd(cfg, s.c, s.ticks) else s
    }

    static lemma {:induction false} EndUnfolds(cfg: Config, s: Stage)
      requires s.flow == Continue
      ensures EndOf(cfg, s) == EndOf(cfg, Iterate(cfg, s.c, s.ticks))
    {
    }

    // The end of the `try` block, its `catch`, and suspension at an await nobody has answered yet.
    method SettleRun(c: ExecutionContext, flow: Flow, ghost rest: seq<Tick>) returns (outcome: Outcome)
      requires flow != Continue
      modifies this, c.stateMachine, c.history
      ensures (View(c), outcome) == Settle(Stage(old(View(c)), flow, rest))
    {
      match flow {
        case Break => outcome := Conclude(c);
        case Throw(fault) => outcome := HandleFault(c, fault);
        case Starved => outcome := Suspended;
      }
    }

    method Execute(c: ExecutionContext, ticks: seq<Tick>) returns (outcome: Outcome)
      requires c.Valid()
      modifies this, c, c.stateMachine, c.history, c.retryManager
      ensures (View(c), outcome) == ExecutionRun.Execute(c.config, old(View(c)), ticks)
    {
      if c.plan.None? {
        return Rejected;
      }
      c.history.AddEntry(Started);
      var ok := c.stateMachine.Transition(Running);
      if !ok {
        return Rejected;
      }
      Emit(ExecutionStarted(|c.Steps()|));
      var flow, rest := RunSteps(c, ticks);
      outcome := SettleRun(c, flow, rest);
    }
  }
}
