// Bounds on whole runs: executor calls, sleep and termination, replanning included.
module ExecutionTermination {
  import opened Basics
  import opened Plans
  import opened ExecutionState
  import opened ExecutionHistory
  import opened ExecutionRetry
  import opened ExecutionRun
  import opened ExecutionAccounting
  import opened ExecutionGrowth
  import opened ExecutionOutcomes
  import opened ExecutionTrail

  // ---- Counting -----------------------------------------------------------------------

  // A collection over a finite set in which nothing occurs more than `limit` times.
  lemma {:induction false} CountBound(ids: multiset<string>, universe: set<string>, limit: nat)
    requires forall x :: x in ids ==> x in universe && ids[x] <= limit
    ensures |ids| <= |universe| * limit
    decreases universe
  {
    if universe == {} {
      assert ids == multiset{};
    } else {
      var x :| x in universe;
      var rest := ids[x := 0];
      CountBound(rest, universe - {x}, limit);
      assert |ids| == |rest| + ids[x];
      assert |universe| == |universe - {x}| + 1;
      assert |universe| * limit == |universe - {x}| * limit + limit;
    }
  }

  function ResultIds(results: seq<StepResult>): seq<string> {
    if results == [] then []
    else
      var n := |results| - 1;
      ResultIds(results[..n]) + [results[n].stepId]
  }

  lemma {:induction false} ResultIdsCount(results: seq<StepResult>)
    ensures |ResultIds(results)| == |results|
    ensures forall i :: 0 <= i < |results| ==> ResultIds(results)[i] == results[i].stepId
    ensures forall x :: multiset(ResultIds(results))[x] == RunsOf(results, x)
  {
    if results != [] {
      ResultIdsCount(results[..|results| - 1]);
    }
  }

  // The steps the executor was called for, in order.
  function Calls(events: seq<Event>): seq<string> {
    if events == [] then []
    else
      var n := |events| - 1;
      Calls(events[..n]) + if events[n].StepStartedEvent? then [events[n].stepId] else []
  }

  lemma {:induction false} CallsCount(events: seq<Event>)
    ensures forall x :: multiset(Calls(events))[x] == CallsOf(events, x)
  {
    if events != [] {
      CallsCount(events[..|events| - 1]);
    }
  }

  // ---- All ids come from one finite set ----------------------------------------------------

  ghost function In(universe: set<string>): string -> bool {
    x => x in universe
  }

  ghost predicate Within(universe: set<string>, c: Context) {
    && StepsKnown(In(universe), c.Steps())
    && (forall i :: 0 <= i < |c.results| ==> c.results[i].stepId in universe)
    && (forall e :: e in c.events && e.StepStartedEvent? ==> e.stepId in universe)
  }

  lemma {:induction false} WithinGrows(universe: set<string>, c: Context, d: Context)
    requires Within(universe, c) && Grows(In(universe), c, d)
    ensures Within(universe, d)
  {
    forall i | 0 <= i < |d.results|
      ensures d.results[i].stepId in universe
    {
      assert i < |c.results| ==> c.results[i] == d.results[i];
    }
    forall e | e in d.events && e.StepStartedEvent?
      ensures e.stepId in universe
    {
      var i :| 0 <= i < |d.events| && d.events[i] == e;
      assert i < |c.events| ==> c.events[i] == e && e in c.events;
    }
  }

  lemma {:induction false} RunStepWithin(universe: set<string>, cfg: Config, c: Context, id: string, ticks: seq<Tick>)
    requires Within(universe, c) && ReplansKnown(In(universe), ticks) && id in universe
    ensures Within(universe, RunStep(cfg, c, id, ticks).c)
    ensures ReplansKnown(In(universe), RunStep(cfg, c, id, ticks).ticks)
  {
    RunStepTicks(cfg, c, id, ticks);
    RunStepGrows(In(universe), cfg, c, id, ticks);
    WithinGrows(universe, c, RunStep(cfg, c, id, ticks).c);
  }

  // ---- Progress -------------------------------------------------------------------------

  lemma {:induction false} ActAllResults(c: Context, actions: seq<Action>)
    ensures ActAll(c, actions).results == c.results
    decreases |actions|
  {
    if actions != [] {
      ActAllResults(Act(c, actions[0]), actions[1..]);
    }
  }

  lemma {:induction false} RetryResults(cfg: Config, c: Context, id: string, ticks: seq<Tick>)
    ensures Retry(cfg, c, id, ticks).c.results == c.results
    ensures Retry(cfg, c, id, ticks).flow == Starved ==> ticks == []
    ensures |Retry(cfg, c, id, ticks).ticks| >= |ticks| - 1
  {
    if ticks != [] {
      var attempt := AttemptsOf(c.attempts, id) + 1;
      var slept := c.(attempts := c.attempts[id := attempt])
                   .Emit(RetryStarted(id, attempt, RetryDelay(attempt, cfg.retryPolicy)));
      ActAllResults(slept.(machine := slept.machine.Step(id, StepRetrying)), ticks[0].actions);
    }
  }

  lemma {:induction false} ReplanResults(c: Context, id: string, ticks: seq<Tick>)
    ensures RequestReplan(c, id, ticks).c.results == c.results
    ensures RequestReplan(c, id, ticks).flow == Starved ==> ticks == []
    ensures |RequestReplan(c, id, ticks).ticks| >= |ticks| - 1
  {
    if ticks != [] {
      var asked := c.(history := c.history.Add(ReplanRequested(id)));
      ActAllResults(asked.(machine := asked.machine.Move(Replanning)), ticks[0].actions);
    }
  }

  lemma {:induction false} FailResults(cfg: Config, c: Context, r: StepResult, ticks: seq<Tick>)
    ensures Fail(cfg, c, r, ticks).c.results == c.results
    ensures Fail(cfg, c, r, ticks).flow == Starved ==> ticks == []
    ensures |Fail(cfg, c, r, ticks).ticks| >= |ticks| - 1
  {
    var d := c.(machine := c.machine.Step(r.stepId, StepFailed)).Emit(StepFailedEvent(r.stepId, r.errorCode));
    RetryResults(cfg, d, r.stepId, ticks);
    ReplanResults(d, r.stepId, ticks);
  }

  // A step that gets an answer adds one result and uses at most two ticks.
  lemma {:induction false} RunStepProgress(cfg: Config, c: Context, id: string, ticks: seq<Tick>)
    ensures var s := RunStep(cfg, c, id, ticks);
      && (s.flow == Starved && ticks != [] ==> |ticks| == 1 && |s.c.results| == |c.results| + 1)
      && (s.flow == Continue ==> |s.c.results| == |c.results| + 1 && |s.ticks| >= |ticks| - 2)
  {
    var begun := Begin(c, id);
    if begun.flow == Continue && ticks != [] {
      ActAllResults(begun.c, ticks[0].actions);
      var r := ResultOf(id, ticks[0].answer);
      var d := Record(cfg, ActAll(begun.c, ticks[0].actions), r);
      assert |d.results| == |c.results| + 1;
      FailResults(cfg, d, r, ticks[1..]);
    }
  }

  lemma {:induction false} ResultsBound(universe: set<string>, cfg: Config, c: Context)
    requires Within(universe, c) && Ledger(cfg, c)
    ensures |c.results| <= |universe| * RunLimit(cfg)
  {
    ResultIdsCount(c.results);
    var ids := multiset(ResultIds(c.results));
    forall x | x in ids
      ensures x in universe && ids[x] <= RunLimit(cfg)
    {
      assert Bounded(cfg, c, x);
      assert x in ResultIds(c.results);
    }
    CountBound(ids, universe, RunLimit(cfg));
  }

  // While the executor is busy with a step there is room for one more result.
  lemma {:induction false} UnderwayBound(universe: set<string>, cfg: Config, c: Context, id: string)
    requires Within(universe, c) && Underway(cfg, c, id) && id in universe
    ensures |c.results| + 1 <= |universe| * RunLimit(cfg)
  {
    UnderwayLedger(cfg, c, id);
    ResultIdsCount(c.results);
    var ids := multiset(ResultIds(c.results)) + multiset{id};
    forall x | x in ids
      ensures x in universe && ids[x] <= RunLimit(cfg)
    {
      assert Bounded(cfg, c, x);
      assert x == id || x in ResultIds(c.results);
    }
    CountBound(ids, universe, RunLimit(cfg));
  }

  ghost function Room(universe: set<string>, cfg: Config, c: Context): int {
    |universe| * RunLimit(cfg) - |c.results|
  }

  lemma {:induction false} StepTerminates(universe: set<string>, cfg: Config, c: Context, id: string, ticks: seq<Tick>)
    requires Books(cfg, c) && Within(universe, c) && ReplansKnown(In(universe), ticks) && id in universe
    ensures var s := RunStep(cfg, c, id, ticks);
      && (s.flow == Starved ==> |ticks| < 2 * Room(universe, cfg, c))
      && (s.flow == Continue ==> Room(universe, cfg, s.c) == Room(universe, cfg, c) - 1 && |s.ticks| >= |ticks| - 2)
  {
    var s := RunStep(cfg, c, id, ticks);
    RunStepProgress(cfg, c, id, ticks);
    RunStepStage(cfg, c, id, ticks);
    RunStepWithin(universe, cfg, c, id, ticks);
    ResultsBound(universe, cfg, s.c);
    BeginStage(cfg, c, id);
    var begun := Begin(c, id);
    if begun.flow == Continue && ticks == [] {
      assert Within(universe, begun.c);
      UnderwayBound(universe, cfg, begun.c, id);
    }
  }

  lemma {:induction false} LoopTerminates(universe: set<string>, cfg: Config, c: Context, ticks: seq<Tick>)
    requires Books(cfg, c) && Within(universe, c) && ReplansKnown(In(universe), ticks)
    requires AtHead(c) && c.machine.status != Paused && PauseFree(ticks)
    ensures LoopEnd(cfg, c, ticks).flow == Starved ==> |ticks| < 2 * Room(universe, cfg, c)
    ensures Within(universe, LoopEnd(cfg, c, ticks).c)
    decreases |ticks|
  {
    var s := Iterate(cfg, c, ticks);
    if !c.aborted && c.CurrentStep().Some? {
      var id := c.CurrentStep().value.id;
      assert c.CurrentStep().value in c.Steps();
      assert s == RunStep(cfg, c, id, ticks);
      StepTerminates(universe, cfg, c, id, ticks);
      RunStepStage(cfg, c, id, ticks);
      RunStepWithin(universe, cfg, c, id, ticks);
      RunStepStatus(cfg, c, id, ticks, NO_PAUSE);
      if s.flow == Continue {
        LoopTerminates(universe, cfg, s.c, s.ticks);
      }
    }
  }

  // Without pauses, a run over step ids from a finite set ends, however often it replans: twice as many
  // awaits as |universe| * max(1, maxAttempts) are always enough.
  lemma {:induction false} TerminationTheorem(
    universe: set<string>, cfg: Config, plan: Plan, aborted: bool, ticks: seq<Tick>)
    requires StepsKnown(In(universe), plan.steps) && ReplansKnown(In(universe), ticks) && PauseFree(ticks)
    requires |ticks| >= 2 * |universe| * RunLimit(cfg)
    ensures Execute(cfg, Fresh(plan, aborted), ticks).1 == Returned
  {
    StartHead(universe, cfg, plan, aborted);
    var c := Start(Fresh(plan, aborted));
    LoopTerminates(universe, cfg, c, ticks);
    OnlyStarvedSuspends(LoopEnd(cfg, c, ticks));
    OutcomeTheorem(cfg, plan, aborted, ticks);
  }

  lemma {:induction false} StartHead(universe: set<string>, cfg: Config, plan: Plan, aborted: bool)
    requires StepsKnown(In(universe), plan.steps)
    ensures var c := Start(Fresh(plan, aborted));
      && Books(cfg, c) && Within(universe, c) && AtHead(c) && c.machine.status == Running
      && 2 * Room(universe, cfg, c) == 2 * |universe| * RunLimit(cfg)
  {
    StartBooks(cfg, plan, aborted);
    assert !CancelAnnounced(Start(Fresh(plan, aborted)));
  }

  lemma {:induction false} OnlyStarvedSuspends(s: Stage)
    requires s.flow != Continue && s.flow != Starved
    ensures Settle(s).1 != Suspended
  {
  }

  // At every moment of every run, pauses or not: each step has been handed to the executor at most
  // max(1, maxAttempts) times, all steps together at most |universe| times that, and no step has succeeded twice.
  lemma {:induction false} CallBoundTheorem(
    universe: set<string>, cfg: Config, plan: Plan, aborted: bool, ticks: seq<Tick>)
    requires StepsKnown(In(universe), plan.steps) && ReplansKnown(In(universe), ticks)
    ensures var d := Execute(cfg, Fresh(plan, aborted), ticks).0;
      && (forall x :: CallsOf(d.events, x) <= RunLimit(cfg))
      && |Calls(d.events)| <= |universe| * RunLimit(cfg)
      && Distinct(Successes(d.results))
  {
    var d := Execute(cfg, Fresh(plan, aborted), ticks).0;
    LedgerTheorem(cfg, plan, aborted, ticks);
    ExecuteWithin(universe, cfg, plan, aborted, ticks);
    CallsCount(d.events);
    CallsInEvents(d.events);
    var calls := multiset(Calls(d.events));
    forall x
      ensures CallsOf(d.events, x) <= RunLimit(cfg)
      ensures x in calls ==> x in universe
    {
      assert Bounded(cfg, d, x);
      assert x in calls ==> x in Calls(d.events);
    }
    CountBound(calls, universe, RunLimit(cfg));
  }

  lemma {:induction false} CallsInEvents(events: seq<Event>)
    ensures forall x :: x in Calls(events) ==> exists e :: e in events && e.StepStartedEvent? && e.stepId == x
  {
    if events != [] {
      var n := |events| - 1;
      CallsInEvents(events[..n]);
      assert events == events[..n] + [events[n]];
    }
  }

  lemma {:induction false} ExecuteWithin(
    universe: set<string>, cfg: Config, plan: Plan, aborted: bool, ticks: seq<Tick>)
    requires StepsKnown(In(universe), plan.steps) && ReplansKnown(In(universe), ticks)
    ensures Within(universe, Execute(cfg, Fresh(plan, aborted), ticks).0)
  {
    ExecuteGrows(In(universe), cfg, plan, aborted, ticks);
    WithinGrows(universe, Start(Fresh(plan, aborted)), Execute(cfg, Fresh(plan, aborted), ticks).0);
  }

  // ---- Sleep -----------------------------------------------------------------------------

  // All the time a run sleeps before retries of one step stays below (maxAttempts - 1) * cap, for any
  // cap on the single delays: maxDelayMs, unless a larger fixed delay is configured.
  lemma {:induction false} SleepTheorem(cfg: Config, plan: Plan, aborted: bool, ticks: seq<Tick>, id: string)
    requires cfg.retryPolicy.maxAttempts >= 1 && cfg.retryPolicy.maxDelayMs >= 0.0
    requires !(cfg.retryPolicy.strategy == Fixed && cfg.retryPolicy.baseDelayMs > cfg.retryPolicy.maxDelayMs)
    ensures SleepOf(Execute(cfg, Fresh(plan, aborted), ticks).0.events, id)
         <= (cfg.retryPolicy.maxAttempts - 1) as real * cfg.retryPolicy.maxDelayMs
  {
    LedgerTheorem(cfg, plan, aborted, ticks);
    LedgerSleep(cfg, Execute(cfg, Fresh(plan, aborted), ticks).0, id);
  }

  lemma {:induction false} LedgerSleep(cfg: Config, d: Context, id: string)
    requires Ledger(cfg, d)
    requires cfg.retryPolicy.maxAttempts >= 1 && cfg.retryPolicy.maxDelayMs >= 0.0
    requires !(cfg.retryPolicy.strategy == Fixed && cfg.retryPolicy.baseDelayMs > cfg.retryPolicy.maxDelayMs)
    ensures SleepOf(d.events, id) <= (cfg.retryPolicy.maxAttempts - 1) as real * cfg.retryPolicy.maxDelayMs
  {
    assert Bounded(cfg, d, id);
    SleepWithinCap(cfg.retryPolicy, SleepsOf(cfg, d, id));
  }

  lemma {:induction false} SleepWithinCap(policy: RetryPolicy, n: nat)
    requires n < policy.maxAttempts && policy.maxDelayMs >= 0.0
    requires !(policy.strategy == Fixed && policy.baseDelayMs > policy.maxDelayMs)
    ensures DelaySum(policy, n) <= (policy.maxAttempts - 1) as real * policy.maxDelayMs
  {
    SleepCapped(policy, n);
    ScaleBound(DelaySum(policy, n), n, policy.maxAttempts - 1, policy.maxDelayMs);
  }

  lemma {:induction false} SleepCapped(policy: RetryPolicy, n: nat)
    requires policy.maxDelayMs >= 0.0
    requires !(policy.strategy == Fixed && policy.baseDelayMs > policy.maxDelayMs)
    ensures DelaySum(policy, n) <= n as real * policy.maxDelayMs
  {
    DelayCap(policy);
    DelaySumBound(policy, n, policy.maxDelayMs);
  }

  lemma {:induction false} ScaleBound(total: real, m: nat, n: nat, cap: real)
    requires m <= n && cap >= 0.0 && total <= m as real * cap
    ensures total <= n as real * cap
  {
    assert n as real * cap - m as real * cap == (n - m) as real * cap;
  }
}
