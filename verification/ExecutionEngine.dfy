// The execution engine: planner answer, validation, one run of the loop, and its report.
// The engine always runs steps with its own default executor, which never fails.
module ExecutionEngine {
  import opened Basics
  import opened Plans
  import opened ExecutionState
  import opened ExecutionHistory
  import opened ExecutionRetry
  import opened ExecutionRun
  import opened ExecutionValidator
  import ExecutionLoop
  import ExecutionAccounting
  import PlanningEngine

  datatype EngineError = NoPlan | PlanInvalid(faults: seq<PlanFault>) | ExecutionFailure

  // How planning went: no planning function, one that threw, a response without a plan, a plan.
  datatype Planning = NoPlanner | PlannerThrew | NoAnswer | Offers(plan: Plan)

  datatype EngineResult = EngineResult(
    status: Status,
    success: bool,
    stepResults: seq<StepResult>,
    error: Option<EngineError>,
    stepsCompleted: nat,
    totalSteps: nat,
    totalRetries: nat)

  // What the loop sees at each await: the environment's actions, and the default executor's answer.
  function Attended(environment: seq<seq<Action>>): (ticks: seq<Tick>)
    ensures |ticks| == |environment|
    ensures forall i :: 0 <= i < |ticks| ==> ticks[i].actions == environment[i]
  {
    Map(environment, (actions: seq<Action>) => Tick(actions, Answered(true, None, NO_EFFORT), ReplanThrew))
  }

  // The report is on the run that the environment makes of the plan, and so is the log.
  ghost predicate Reports(
    cfg: Config, p: Plan, aborted: bool, environment: seq<seq<Action>>, before: seq<Event>, emitted: seq<Event>,
    outcome: Outcome, result: Option<EngineResult>)
  {
    var (d, end) := Execute(cfg, Prepared(p, aborted, before), Attended(environment));
    && outcome == end && emitted == d.events
    && (result.Some? ==> result.value.status == d.machine.status && result.value.stepResults == d.results)
  }

  ghost predicate AllAttended(ticks: seq<Tick>) {
    forall i :: 0 <= i < |ticks| ==> ticks[i].answer == Answered(true, None, NO_EFFORT)
  }

  // ---- Runs in which every step succeeds ------------------------------------------------

  // The results of the first n steps, each run once.
  function Delivered(p: Plan, n: nat): (results: seq<StepResult>)
    requires n <= |p.steps|
    ensures |results| == n
  {
    seq(n, i requires 0 <= i < n => StepResult(p.steps[i].id, true, None, NO_EFFORT))
  }

  // Step i carries the id of an earlier one.
  ghost predicate Repeats(p: Plan, i: nat) {
    i < |p.steps| && p.steps[i].id in Ids(p.steps)[..i]
  }

  ghost predicate Delivering(p: Plan, c: Context) {
    && c.plan == Some(p) && c.index <= |p.steps|
    && c.results == Delivered(p, c.index)
    && c.attempts == map[]
    && Distinct(Ids(p.steps)[..c.index])
  }

  ghost predicate Steady(p: Plan, c: Context) {
    && Delivering(p, c)
    && c.machine.status in {Running, Paused, Cancelled}
    && forall x :: c.machine.StateOf(x) == if x in Ids(p.steps)[..c.index] then StepCompleted else StepPending
  }

  lemma {:induction false} SuccessesDelivered(p: Plan, n: nat)
    requires n <= |p.steps|
    ensures Successes(Delivered(p, n)) == Ids(p.steps)[..n]
  {
    if n > 0 {
      SuccessesDelivered(p, n - 1);
      assert Delivered(p, n)[..n - 1] == Delivered(p, n - 1);
    }
  }

  // The environment touches nothing but the status and the abort flag.
  lemma {:induction false} ActAllKeeps(c: Context, actions: seq<Action>)
    requires c.machine.status in {Running, Paused, Cancelled}
    ensures var d := ActAll(c, actions);
      && d.plan == c.plan && d.index == c.index && d.results == c.results && d.attempts == c.attempts
      && d.machine.steps == c.machine.steps
      && d.machine.status in {Running, Paused, Cancelled}
    decreases |actions|
  {
    if actions != [] {
      ActAllKeeps(Act(c, actions[0]), actions[1..]);
    }
  }

  lemma {:induction false} WaitSteady(p: Plan, c: Context, ticks: seq<Tick>)
    requires Steady(p, c) && AllAttended(ticks)
    ensures var w := WaitForResume(c, ticks);
      && Steady(p, w.c) && AllAttended(w.ticks)
      && (w.flow == Starved || (w.flow == Continue && w.c.machine.status != Paused))
    decreases |ticks|
  {
    if c.machine.status == Paused && ticks != [] {
      ActAllKeeps(c, ticks[0].actions);
      WaitSteady(p, ActAll(c, ticks[0].actions), ticks[1..]);
    }
  }

  ghost predicate SteadyStage(p: Plan, s: Stage) {
    && Delivering(p, s.c)
    && s.c.machine.status in {Running, Paused, Cancelled}
    && (s.flow == Continue ==> Steady(p, s.c) && AllAttended(s.ticks))
    && (s.flow == Break ==> s.c.index == |p.steps|)
    && (s.flow.Throw? ==>
          || s.flow.fault == SignalAborted
          || (s.flow.fault == IllegalTransition && s.c.machine.status != Paused && Repeats(p, s.c.index)))
  }

  lemma {:induction false} DeliveredGrows(p: Plan, n: nat)
    requires n < |p.steps| && Distinct(Ids(p.steps)[..n]) && !Repeats(p, n)
    ensures Delivered(p, n) + [StepResult(p.steps[n].id, true, None, NO_EFFORT)] == Delivered(p, n + 1)
    ensures Ids(p.steps)[..n + 1] == Ids(p.steps)[..n] + [p.steps[n].id]
    ensures Distinct(Ids(p.steps)[..n + 1])
  {
    DistinctAppend(Ids(p.steps)[..n], p.steps[n].id);
    assert Ids(p.steps)[..n + 1] == Ids(p.steps)[..n] + [p.steps[n].id];
  }

  lemma {:induction false} SucceedSteady(p: Plan, c: Context, ticks: seq<Tick>)
    requires c.plan == Some(p) && c.index < |p.steps| && c.attempts == map[]
    requires c.machine.status in {Running, Paused, Cancelled}
    requires Distinct(Ids(p.steps)[..c.index]) && !Repeats(p, c.index)
    requires c.results == Delivered(p, c.index + 1)
    requires forall x :: c.machine.StateOf(x)
                         == if x in Ids(p.steps)[..c.index] then StepCompleted
                            else if x == p.steps[c.index].id then StepRunning else StepPending
    requires AllAttended(ticks)
    ensures SteadyStage(p, Succeed(c, p.steps[c.index].id, ticks))
  {
    DeliveredGrows(p, c.index);
  }

  lemma {:induction false} DeliverStep(cfg: Config, p: Plan, c: Context, ticks: seq<Tick>)
    requires Steady(p, c) && c.index < |p.steps| && !Repeats(p, c.index)
    requires ticks != [] && AllAttended(ticks)
    ensures SteadyStage(p, RunStep(cfg, c, p.steps[c.index].id, ticks))
  {
    var id := p.steps[c.index].id;
    assert c.machine.StateOf(id) == StepPending;
    var begun := Begin(c, id);
    var d := ActAll(begun.c, ticks[0].actions);
    ActAllKeeps(begun.c, ticks[0].actions);
    var r := StepResult(id, true, None, NO_EFFORT);
    ExecutionAccounting.RecordKeeps(cfg, d, r);
    DeliveredGrows(p, c.index);
    assert ticks[0].answer == Answered(true, None, NO_EFFORT);
    SucceedSteady(p, Record(cfg, d, r), ticks[1..]);
    assert RunStep(cfg, c, id, ticks) == Succeed(Record(cfg, d, r), id, ticks[1..]);
  }

  lemma {:induction false} IterateSteady(cfg: Config, p: Plan, c: Context, ticks: seq<Tick>)
    requires Steady(p, c) && AllAttended(ticks)
    ensures SteadyStage(p, Iterate(cfg, c, ticks))
  {
    if !c.aborted {
      WaitSteady(p, c, ticks);
      var w := WaitForResume(c, ticks);
      if w.flow == Continue && w.c.index < |p.steps| {
        var id := p.steps[w.c.index].id;
        if !Repeats(p, w.c.index) && w.ticks != [] {
          DeliverStep(cfg, p, w.c, w.ticks);
        }
      }
    }
  }

  lemma {:induction false} LoopSteady(cfg: Config, p: Plan, c: Context, ticks: seq<Tick>)
    requires Steady(p, c) && AllAttended(ticks)
    ensures SteadyStage(p, LoopEnd(cfg, c, ticks))
    decreases |ticks|
  {
    IterateSteady(cfg, p, c, ticks);
    var s := Iterate(cfg, c, ticks);
    if s.flow == Continue {
      LoopSteady(cfg, p, s.c, s.ticks);
    }
  }

  // ---- Undisturbed runs -------------------------------------------------------------------

  ghost predicate Undisturbed(ticks: seq<Tick>) {
    AllAttended(ticks) && forall i :: 0 <= i < |ticks| ==> ticks[i].actions == []
  }

  ghost predicate OnCourse(p: Plan, c: Context) {
    Steady(p, c) && c.machine.status == Running && !c.aborted
  }

  lemma {:induction false} IterateOnCourse(cfg: Config, p: Plan, c: Context, ticks: seq<Tick>)
    requires OnCourse(p, c) && Undisturbed(ticks) && |ticks| >= |p.steps| - c.index
    ensures var s := Iterate(cfg, c, ticks);
      && s.flow != Starved && s.flow != Throw(SignalAborted) && s.c.machine.status == Running
      && (s.flow == Continue ==>
            OnCourse(p, s.c) && Undisturbed(s.ticks) && |s.ticks| >= |p.steps| - s.c.index)
  {
    IterateSteady(cfg, p, c, ticks);
    if c.index < |p.steps| {
      assert ticks[0].actions == [] && ticks[0].answer == Answered(true, None, NO_EFFORT);
    }
  }

  lemma {:induction false} LoopOnCourse(cfg: Config, p: Plan, c: Context, ticks: seq<Tick>)
    requires OnCourse(p, c) && Undisturbed(ticks) && |ticks| >= |p.steps| - c.index
    ensures var s := LoopEnd(cfg, c, ticks);
      s.flow != Starved && s.flow != Throw(SignalAborted) && s.c.machine.status == Running
    decreases |ticks|
  {
    IterateOnCourse(cfg, p, c, ticks);
    var s := Iterate(cfg, c, ticks);
    if s.flow == Continue {
      LoopOnCourse(cfg, p, s.c, s.ticks);
    }
  }

  // ---- Whole runs ---------------------------------------------------------------------------

  // The context the engine hands to the loop, whatever the loop has announced before.
  function Prepared(p: Plan, aborted: bool, emitted: seq<Event>): Context {
    Fresh(p, aborted).(events := emitted)
  }

  ghost predicate Closes(p: Plan, d: Context, outcome: Outcome) {
    && (outcome == Returned ==> d.machine.status in {Completed, Failed, Cancelled})
    && (d.machine.status == Completed ==> d.index == |p.steps|)
    && (d.machine.status == Failed ==> Repeats(p, d.index))
    && (outcome == Rejected ==> d.machine.status == Paused && d.index == |p.steps|)
  }

  lemma {:induction false} SettleSteady(p: Plan, s: Stage)
    requires SteadyStage(p, s) && s.flow != Continue
    ensures Delivering(p, Settle(s).0) && Closes(p, Settle(s).0, Settle(s).1)
    ensures Settle(s).0.index == s.c.index
  {
  }

  lemma {:induction false} SettleOnCourse(p: Plan, s: Stage)
    requires SteadyStage(p, s) && s.flow != Continue
    requires s.flow != Starved && s.flow != Throw(SignalAborted) && s.c.machine.status == Running
    ensures Settle(s).1 == Returned
    ensures Settle(s).0.machine.status == (if s.flow == Break then Completed else Failed)
  {
  }

  lemma {:induction false} PreparedSteady(p: Plan, aborted: bool, emitted: seq<Event>)
    ensures Steady(p, Start(Prepared(p, aborted, emitted)))
  {
  }

  // Whatever the environment does: the results are those of the plan's first steps, each run once and
  // successful; nothing is ever retried; only a repeated id can make the run fail; and the one way
  // to escape by exception is to be paused after the last step.
  lemma {:induction false} EngineTheorem(cfg: Config, p: Plan, aborted: bool, emitted: seq<Event>, ticks: seq<Tick>)
    requires AllAttended(ticks)
    ensures var (d, outcome) := Execute(cfg, Prepared(p, aborted, emitted), ticks);
      Delivering(p, d) && Closes(p, d, outcome)
  {
    var c := Start(Prepared(p, aborted, emitted));
    PreparedSteady(p, aborted, emitted);
    LoopSteady(cfg, p, c, ticks);
    SettleSteady(p, LoopEnd(cfg, c, ticks));
  }

  // Left alone, a run ends; and it ends completed exactly when no two steps share an id, which neither
  // the engine nor the validator it calls checks.
  lemma {:induction false} UndisturbedCompletesIff(cfg: Config, p: Plan, emitted: seq<Event>, ticks: seq<Tick>)
    requires Undisturbed(ticks) && |ticks| >= |p.steps|
    ensures var (d, outcome) := Execute(cfg, Prepared(p, false, emitted), ticks);
      && outcome == Returned
      && (d.machine.status == Completed <==> Distinct(Ids(p.steps)))
      && (d.machine.status == Failed <==> !Distinct(Ids(p.steps)))
      && (d.machine.status == Completed ==> d.results == Delivered(p, |p.steps|))
  {
    var c := Start(Prepared(p, false, emitted));
    PreparedSteady(p, false, emitted);
    LoopSteady(cfg, p, c, ticks);
    LoopOnCourse(cfg, p, c, ticks);
    var s := LoopEnd(cfg, c, ticks);
    SettleSteady(p, s);
    SettleOnCourse(p, s);
    if s.flow == Break {
      assert Ids(p.steps)[..|p.steps|] == Ids(p.steps);
    } else {
      RepeatsNotDistinct(p, s.c.index);
    }
  }

  lemma {:induction false} RepeatsNotDistinct(p: Plan, i: nat)
    requires Repeats(p, i)
    ensures !Distinct(Ids(p.steps))
  {
    var j :| 0 <= j < i && Ids(p.steps)[..i][j] == p.steps[i].id;
    assert Ids(p.steps)[j] == Ids(p.steps)[i];
  }

  // What a report says about the plan it is a report on.
  ghost predicate Faithful(p: Plan, r: EngineResult) {
    && r.stepsCompleted == |r.stepResults| <= r.totalSteps == |p.steps|
    && r.stepResults == Delivered(p, r.stepsCompleted)
    && r.totalRetries == 0
    && (r.success <==> r.status == Completed)
    && (r.success ==> r.stepsCompleted == r.totalSteps)
    && (r.status == Failed <==> r.error == Some(ExecutionFailure))
    && (r.status == Failed ==> Repeats(p, r.stepsCompleted))
  }

  // Nobody aborts, pauses or cancels, and every await is answered.
  ghost predicate LeftAlone(p: Plan, aborted: bool, environment: seq<seq<Action>>) {
    !aborted && |environment| >= |p.steps| && forall i :: 0 <= i < |environment| ==> environment[i] == []
  }

  lemma {:induction false} EngineRun(
    cfg: Config, p: Plan, aborted: bool, emitted: seq<Event>, environment: seq<seq<Action>>, d: Context,
    outcome: Outcome)
    requires (d, outcome) == Execute(cfg, Prepared(p, aborted, emitted), Attended(environment))
    ensures Delivering(p, d) && Closes(p, d, outcome)
    ensures LeftAlone(p, aborted, environment) ==>
      outcome == Returned && (d.machine.status == Completed <==> Distinct(Ids(p.steps)))
  {
    EngineTheorem(cfg, p, aborted, emitted, Attended(environment));
    if LeftAlone(p, aborted, environment) {
      UndisturbedCompletesIff(cfg, p, emitted, Attended(environment));
    }
  }

  lemma {:induction false} DeliveredReport(p: Plan, d: Context, r: EngineResult)
    requires Delivering(p, d) && Closes(p, d, Returned)
    requires r.status == d.machine.status && (r.success <==> r.status == Completed)
    requires r.stepResults == d.results && r.stepsCompleted == |Successes(d.results)|
    requires r.totalSteps == |d.Steps()| && r.totalRetries == SumAttempts(d.attempts)
    requires r.error == if r.status == Failed then Some(ExecutionFailure) else None
    ensures Faithful(p, r)
  {
    SuccessesDelivered(p, d.index);
  }

  // A plan from the rule-based planner, left alone, runs to completion in order.
  lemma {:induction false} GeneratedPlanCompletes(cfg: Config, p: Plan, ticks: seq<Tick>)
    requires PlanningEngine.Chain(p.steps)
    requires Undisturbed(ticks) && |ticks| >= |p.steps|
    ensures var (d, outcome) := Execute(cfg, Prepared(p, false, []), ticks);
      outcome == Returned && d.machine.status == Completed && d.results == Delivered(p, |p.steps|)
  {
    PlanningEngine.ChainSound(p.steps);
    UndisturbedCompletesIff(cfg, p, [], ticks);
  }

  // Wired to that planner as documented, the engine sends bare tools and no step limit: it is always refused.
  lemma {:induction false} WiredPlannerRefuses(goal: string, toolIds: seq<string>)
    ensures !PlanningEngine.Plannable(goal, PlanningEngine.BareTools(toolIds), None, None)
  {
    PlanningEngine.BareToolsPlannableIff(goal, toolIds, None, None);
  }

  // ---- The engine -----------------------------------------------------------------------------

  class ExecutionEngine {
    const loop: ExecutionLoop.ExecutionLoop
    const config: Config

    constructor (config: Config)
      ensures this.config == config && fresh(loop) && loop.emitted == []
    {
      this.config := config;
      loop := new ExecutionLoop.ExecutionLoop();
    }

    method BuildResult(c: ExecutionLoop.ExecutionContext) returns (r: EngineResult)
      ensures r.status == c.stateMachine.currentStatus && (r.success <==> r.status == Completed)
      ensures r.stepResults == c.stepResults && r.stepsCompleted == |Successes(c.stepResults)|
      ensures r.totalSteps == |c.Steps()| && r.totalRetries == SumAttempts(c.retryManager.Attempts())
      ensures r.error == if r.status == Failed then Some(ExecutionFailure) else None
    {
      var status := c.stateMachine.currentStatus;
      var retries := c.retryManager.GetTotalAttempts();
      r := EngineResult(
        status, status == Completed, c.stepResults,
        if status == Failed then Some(ExecutionFailure) else None,
        |Successes(c.stepResults)|, |c.Steps()|, retries);
    }

    // Validation has passed: a fresh context, one run of the loop, and the report on it.
    method RunPlan(p: Plan, aborted: bool, environment: seq<seq<Action>>)
      returns (outcome: Outcome, result: Option<EngineResult>)
      modifies loop
      ensures result.Some? <==> outcome == Returned
      ensures Reports(config, p, aborted, environment, old(loop.emitted), loop.emitted, outcome, result)
      ensures result.Some? ==> Faithful(p, result.value)
      ensures LeftAlone(p, aborted, environment) ==>
        result.Some? && (result.value.success <==> Distinct(Ids(p.steps)))
    {
      var c := new ExecutionLoop.ExecutionContext(config, aborted);
      c.SetPlan(p);
      ghost var emitted := loop.emitted;
      var ticks := Attended(environment);
      assert loop.View(c) == Prepared(p, aborted, emitted);
      outcome := loop.Execute(c, ticks);
      ghost var d := loop.View(c);
      EngineRun(config, p, aborted, emitted, environment, d, outcome);
      if outcome != Returned {
        return outcome, None;
      }
      var r := BuildResult(c);
      DeliveredReport(p, d, r);
      result := Some(r);
    }

    // Run what the planner answered.  Whatever memory retrieval answers is dropped.
    method Execute(planning: Planning, aborted: bool, environment: seq<seq<Action>>)
      returns (outcome: Outcome, result: Option<EngineResult>)
      modifies loop
      ensures result.Some? <==> outcome == Returned
      ensures planning == PlannerThrew ==> outcome == Rejected && loop.emitted == old(loop.emitted)
      ensures planning == NoPlanner || planning == NoAnswer ==>
        result == Some(EngineResult(Failed, false, [], Some(NoPlan), 0, 0, 0)) && loop.emitted == old(loop.emitted)
      ensures planning.Offers? && !Executable(planning.plan) ==>
        && result.Some? && result.value.error.Some? && result.value.error.value.PlanInvalid?
        && !result.value.success && result.value.stepResults == [] && loop.emitted == old(loop.emitted)
        && result.value.status == Failed && result.value.totalSteps == |planning.plan.steps|
        && FaultsIn(planning.plan, result.value.error.value.faults)
      ensures planning.Offers? && Executable(planning.plan) ==>
        Reports(config, planning.plan, aborted, environment, old(loop.emitted), loop.emitted, outcome, result)
      ensures planning.Offers? && Executable(planning.plan) && result.Some? ==> Faithful(planning.plan, result.value)
      ensures planning.Offers? && Executable(planning.plan) && LeftAlone(planning.plan, aborted, environment) ==>
        result.Some? && (result.value.success <==> Distinct(Ids(planning.plan.steps)))
    {
      match planning {
        case PlannerThrew =>
          return Rejected, None;
        case NoPlanner =>
          return Returned, Some(EngineResult(Failed, false, [], Some(NoPlan), 0, 0, 0));
        case NoAnswer =>
          return Returned, Some(EngineResult(Failed, false, [], Some(NoPlan), 0, 0, 0));
        case Offers(p) =>
          var valid, faults := ValidatePlanForExecution(p);
          if !valid {
            return Returned, Some(EngineResult(Failed, false, [], Some(PlanInvalid(faults)), 0, |p.steps|, 0));
          }
          outcome, result := RunPlan(p, aborted, environment);
      }
    }
  }
}
