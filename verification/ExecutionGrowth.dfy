// What a run only ever adds to: its event log and its results, and the ids that can turn up in them.
module ExecutionGrowth {
  import opened Plans
  import opened ExecutionState
  import opened ExecutionHistory
  import opened ExecutionRetry
  import opened ExecutionRun

  ghost predicate StepsKnown(known: string -> bool, steps: seq<PlanStep>) {
    forall s :: s in steps ==> known(s.id)
  }

  ghost predicate ReplansKnown(known: string -> bool, ticks: seq<Tick>) {
    forall t :: t in ticks && t.replan.NewPlan? ==> StepsKnown(known, t.replan.plan.steps)
  }

  // From c to d events and results are only added, and every step id that comes in is a known one.
  ghost predicate Grows(known: string -> bool, c: Context, d: Context) {
    && c.events <= d.events
    && (forall i :: |c.events| <= i < |d.events| && d.events[i].StepStartedEvent? ==> known(d.events[i].stepId))
    && c.results <= d.results
    && (forall i :: |c.results| <= i < |d.results| ==> known(d.results[i].stepId))
    && (d.plan == c.plan || StepsKnown(known, d.Steps()))
  }

  lemma {:induction false} GrowsOn(known: string -> bool, c: Context, d: Context, e: Context)
    requires Grows(known, c, d) && Grows(known, d, e)
    ensures Grows(known, c, e)
  {
  }

  lemma {:induction false} ActGrows(known: string -> bool, c: Context, a: Action)
    ensures Grows(known, c, Act(c, a))
  {
  }

  lemma {:induction false} ActAllGrows(known: string -> bool, c: Context, actions: seq<Action>)
    ensures Grows(known, c, ActAll(c, actions))
    decreases |actions|
  {
    if actions != [] {
      var d := Act(c, actions[0]);
      ActGrows(known, c, actions[0]);
      ActAllGrows(known, d, actions[1..]);
      GrowsOn(known, c, d, ActAll(d, actions[1..]));
    }
  }

  lemma {:induction false} WaitGrows(known: string -> bool, c: Context, ticks: seq<Tick>)
    ensures Grows(known, c, WaitForResume(c, ticks).c)
    decreases |ticks|
  {
    if c.machine.status == Paused && ticks != [] {
      var d := ActAll(c, ticks[0].actions);
      ActAllGrows(known, c, ticks[0].actions);
      WaitGrows(known, d, ticks[1..]);
      GrowsOn(known, c, d, WaitForResume(d, ticks[1..]).c);
    }
  }

  lemma {:induction false} RetryGrows(known: string -> bool, cfg: Config, c: Context, id: string, ticks: seq<Tick>)
    ensures Grows(known, c, Retry(cfg, c, id, ticks).c)
  {
    if ticks != [] {
      var attempt := AttemptsOf(c.attempts, id) + 1;
      var slept := c.(attempts := c.attempts[id := attempt])
                   .Emit(RetryStarted(id, attempt, RetryDelay(attempt, cfg.retryPolicy)));
      ActAllGrows(known, slept.(machine := slept.machine.Step(id, StepRetrying)), ticks[0].actions);
    }
  }

  lemma {:induction false} ReplanGrows(known: string -> bool, c: Context, id: string, ticks: seq<Tick>)
    requires ReplansKnown(known, ticks)
    ensures Grows(known, c, RequestReplan(c, id, ticks).c)
  {
    if ticks != [] {
      var asked := c.(history := c.history.Add(ReplanRequested(id)));
      ActAllGrows(known, asked.(machine := asked.machine.Move(Replanning)), ticks[0].actions);
      assert ticks[0] in ticks;
    }
  }

  lemma {:induction false} FailGrows(known: string -> bool, cfg: Config, c: Context, r: StepResult, ticks: seq<Tick>)
    requires ReplansKnown(known, ticks)
    ensures Grows(known, c, Fail(cfg, c, r, ticks).c)
  {
    var d := c.(machine := c.machine.Step(r.stepId, StepFailed)).Emit(StepFailedEvent(r.stepId, r.errorCode));
    if c.machine.CanStep(r.stepId, StepFailed) {
      RetryGrows(known, cfg, d, r.stepId, ticks);
      ReplanGrows(known, d, r.stepId, ticks);
      GrowsOn(known, c, d, Fail(cfg, c, r, ticks).c);
    }
  }

  lemma {:induction false} RecordGrows(known: string -> bool, cfg: Config, c: Context, r: StepResult)
    requires known(r.stepId)
    ensures Grows(known, c, Record(cfg, c, r))
  {
  }

  lemma {:induction false} SucceedGrows(known: string -> bool, c: Context, id: string, ticks: seq<Tick>)
    ensures Grows(known, c, Succeed(c, id, ticks).c)
  {
  }

  lemma {:induction false} AnswerGrows(known: string -> bool, cfg: Config, c: Context, r: StepResult, ticks: seq<Tick>)
    requires known(r.stepId) && ReplansKnown(known, ticks)
    ensures var d := Record(cfg, c, r);
      Grows(known, c, if r.success then Succeed(d, r.stepId, ticks).c else Fail(cfg, d, r, ticks).c)
  {
    var d := Record(cfg, c, r);
    RecordGrows(known, cfg, c, r);
    if r.success {
      SucceedGrows(known, d, r.stepId, ticks);
      GrowsOn(known, c, d, Succeed(d, r.stepId, ticks).c);
    } else {
      FailGrows(known, cfg, d, r, ticks);
      GrowsOn(known, c, d, Fail(cfg, d, r, ticks).c);
    }
  }

  lemma {:induction false} RunStepGrows(known: string -> bool, cfg: Config, c: Context, id: string, ticks: seq<Tick>)
    requires known(id) && ReplansKnown(known, ticks)
    ensures Grows(known, c, RunStep(cfg, c, id, ticks).c)
  {
    var begun := Begin(c, id);
    assert Grows(known, c, begun.c);
    if begun.flow == Continue && ticks != [] {
      var d := ActAll(begun.c, ticks[0].actions);
      ActAllGrows(known, begun.c, ticks[0].actions);
      GrowsOn(known, c, begun.c, d);
      AnswerGrows(known, cfg, d, ResultOf(id, ticks[0].answer), ticks[1..]);
      GrowsOn(known, c, d, RunStep(cfg, c, id, ticks).c);
    }
  }

  lemma {:induction false} CurrentKnown(known: string -> bool, c: Context)
    requires StepsKnown(known, c.Steps()) && c.CurrentStep().Some?
    ensures known(c.CurrentStep().value.id)
  {
    assert c.CurrentStep().value in c.Steps();
  }

  lemma {:induction false} IterateGrows(known: string -> bool, cfg: Config, c: Context, ticks: seq<Tick>)
    requires StepsKnown(known, c.Steps()) && ReplansKnown(known, ticks)
    ensures Grows(known, c, Iterate(cfg, c, ticks).c) && ReplansKnown(known, Iterate(cfg, c, ticks).ticks)
  {
    IterateTicks(cfg, c, ticks);
    if !c.aborted {
      var w := WaitForResume(c, ticks);
      WaitGrows(known, c, ticks);
      WaitTicks(c, ticks);
      if w.flow != Starved && w.c.CurrentStep().Some? {
        var id := w.c.CurrentStep().value.id;
        CurrentKnown(known, w.c);
        RunStepGrows(known, cfg, w.c, id, w.ticks);
        GrowsOn(known, c, w.c, RunStep(cfg, w.c, id, w.ticks).c);
      }
    }
  }

  lemma {:induction false} LoopGrows(known: string -> bool, cfg: Config, c: Context, ticks: seq<Tick>)
    requires StepsKnown(known, c.Steps()) && ReplansKnown(known, ticks)
    ensures Grows(known, c, LoopEnd(cfg, c, ticks).c)
    decreases |ticks|
  {
    IterateGrows(known, cfg, c, ticks);
    var s := Iterate(cfg, c, ticks);
    if s.flow == Continue {
      LoopGrows(known, cfg, s.c, s.ticks);
      GrowsOn(known, c, s.c, LoopEnd(cfg, s.c, s.ticks).c);
    }
  }

  lemma {:induction false} SettleGrows(known: string -> bool, s: Stage)
    requires s.flow != Continue
    ensures Grows(known, s.c, Settle(s).0)
  {
  }

  lemma {:induction false} ExecuteGrows(
    known: string -> bool, cfg: Config, plan: Plan, aborted: bool, ticks: seq<Tick>)
    requires StepsKnown(known, plan.steps) && ReplansKnown(known, ticks)
    ensures Grows(known, Start(Fresh(plan, aborted)), Execute(cfg, Fresh(plan, aborted), ticks).0)
  {
    var c := Start(Fresh(plan, aborted));
    LoopGrows(known, cfg, c, ticks);
    SettleGrows(known, LoopEnd(cfg, c, ticks));
    GrowsOn(known, c, LoopEnd(cfg, c, ticks).c, Execute(cfg, Fresh(plan, aborted), ticks).0);
  }

  // ---- The ticks that are left -----------------------------------------------------------------

  ghost predicate IsSuffix(rest: seq<Tick>, ticks: seq<Tick>) {
    |rest| <= |ticks| && rest == ticks[|ticks| - |rest|..]
  }

  lemma {:induction false} WaitTicks(c: Context, ticks: seq<Tick>)
    ensures IsSuffix(WaitForResume(c, ticks).ticks, ticks)
    decreases |ticks|
  {
    if c.machine.status == Paused && ticks != [] {
      WaitTicks(ActAll(c, ticks[0].actions), ticks[1..]);
    }
  }

  lemma {:induction false} RunStepTicks(cfg: Config, c: Context, id: string, ticks: seq<Tick>)
    ensures IsSuffix(RunStep(cfg, c, id, ticks).ticks, ticks)
    ensures |RunStep(cfg, c, id, ticks).ticks| >= |ticks| - 2
  {
    var begun := Begin(c, id);
    if begun.flow == Continue && ticks != [] {
      var r := ResultOf(id, ticks[0].answer);
      FailTicks(cfg, Record(cfg, ActAll(begun.c, ticks[0].actions), r), r, ticks[1..]);
      assert IsSuffix(ticks[1..], ticks);
      assert |ticks| >= 2 ==> ticks[1..][1..] == ticks[2..];
    }
  }

  lemma {:induction false} FailTicks(cfg: Config, c: Context, r: StepResult, ticks: seq<Tick>)
    ensures Fail(cfg, c, r, ticks).ticks == ticks || (ticks != [] && Fail(cfg, c, r, ticks).ticks == ticks[1..])
  {
  }

  lemma {:induction false} IterateTicks(cfg: Config, c: Context, ticks: seq<Tick>)
    ensures IsSuffix(Iterate(cfg, c, ticks).ticks, ticks)
  {
    WaitTicks(c, ticks);
    var w := WaitForResume(c, ticks);
    if !c.aborted && w.flow != Starved && w.c.CurrentStep().Some? {
      RunStepTicks(cfg, w.c, w.c.CurrentStep().value.id, w.ticks);
    }
  }
}
