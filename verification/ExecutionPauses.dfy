// When a pause makes `execute` reject: exactly when it is in force as the answer that ends the run arrives.
module ExecutionPauses {
  import opened Basics
  import opened Plans
  import opened ExecutionState
  import opened ExecutionHistory
  import opened ExecutionRetry
  import opened ExecutionRun
  import opened ExecutionAccounting
  import opened ExecutionOutcomes
  import opened ExecutionTrail

  // The answer leaves the loop nothing to go on with: the last step has succeeded, or a step has failed
  // that will not be tried again, whether or not it would otherwise be replanned.
  ghost predicate LastWord(cfg: Config, c: Context, r: StepResult) {
    if r.success then c.index + 1 >= |c.Steps()|
    else
      !(ShouldRetry(c.attempts, cfg.retryPolicy, r.stepId, r.errorCode)
        && AttemptsOf(c.attempts, r.stepId) + 1 < cfg.retryPolicy.maxAttempts)
  }

  // At this loop head a step is run, and its answer finds the run paused and is its last word.
  ghost predicate PausedAtLastWord(cfg: Config, c: Context, ticks: seq<Tick>) {
    var w := WaitForResume(c, ticks);
    && !c.aborted && w.flow == Continue && w.c.CurrentStep().Some?
    && AnsweredPaused(cfg, w.c, w.c.CurrentStep().value.id, w.ticks)
  }

  ghost predicate AnsweredPaused(cfg: Config, c: Context, id: string, ticks: seq<Tick>) {
    && Begin(c, id).flow == Continue && ticks != []
    && var d := ActAll(Begin(c, id).c, ticks[0].actions);
      d.machine.status == Paused && LastWord(cfg, d, ResultOf(id, ticks[0].answer))
  }

  // The stages that make `execute` reject.
  ghost predicate EndsPaused(s: Stage) {
    s.c.machine.status == Paused && (s.flow == Break || (s.flow.Throw? && s.flow.fault != SignalAborted))
  }

  // ---- What follows an answer ---------------------------------------------------------------

  lemma {:induction false} SucceedEndsPaused(c: Context, id: string, ticks: seq<Tick>)
    requires c.machine.StateOf(id) == StepRunning
    ensures EndsPaused(Succeed(c, id, ticks)) <==> c.machine.status == Paused && c.index + 1 >= |c.Steps()|
  {
  }

  lemma {:induction false} RetryEndsPaused(cfg: Config, c: Context, id: string, ticks: seq<Tick>)
    requires c.machine.StateOf(id) == StepFailed
    ensures EndsPaused(Retry(cfg, c, id, ticks))
        <==> c.machine.status == Paused && AttemptsOf(c.attempts, id) + 1 >= cfg.retryPolicy.maxAttempts
  {
    var attempt := AttemptsOf(c.attempts, id) + 1;
    var slept := c.(attempts := c.attempts[id := attempt])
                 .Emit(RetryStarted(id, attempt, RetryDelay(attempt, cfg.retryPolicy)));
    if ticks != [] {
      ActAllKeepsBooks(slept.(machine := slept.machine.Step(id, StepRetrying)), ticks[0].actions);
    }
  }

  lemma {:induction false} ReplanningUnpaused(c: Context, actions: seq<Action>)
    requires c.machine.status == Replanning
    ensures ActAll(c, actions).machine.status in {Replanning, Cancelled}
    decreases |actions|
  {
    if actions != [] {
      if Act(c, actions[0]).machine.status == Replanning {
        ReplanningUnpaused(Act(c, actions[0]), actions[1..]);
      } else {
        CancelledUnpaused(Act(c, actions[0]), actions[1..]);
      }
    }
  }

  lemma {:induction false} CancelledUnpaused(c: Context, actions: seq<Action>)
    requires c.machine.status == Cancelled
    ensures ActAll(c, actions).machine.status == Cancelled
    decreases |actions|
  {
    if actions != [] {
      CancelledUnpaused(Act(c, actions[0]), actions[1..]);
    }
  }

  lemma {:induction false} ReplanEndsPaused(c: Context, id: string, ticks: seq<Tick>)
    requires c.machine.status in {Running, Paused, Cancelled}
    ensures EndsPaused(RequestReplan(c, id, ticks)) <==> c.machine.status == Paused
  {
    var asked := c.(history := c.history.Add(ReplanRequested(id)));
    if c.machine.status == Running && ticks != [] {
      ReplanningUnpaused(asked.(machine := asked.machine.Move(Replanning)), ticks[0].actions);
    }
  }

  lemma {:induction false} FailEndsPaused(cfg: Config, c: Context, r: StepResult, ticks: seq<Tick>)
    requires c.machine.StateOf(r.stepId) == StepRunning && c.machine.status in {Running, Paused, Cancelled}
    requires !r.success
    ensures EndsPaused(Fail(cfg, c, r, ticks)) <==> c.machine.status == Paused && LastWord(cfg, c, r)
  {
    var d := c.(machine := c.machine.Step(r.stepId, StepFailed)).Emit(StepFailedEvent(r.stepId, r.errorCode));
    RetryEndsPaused(cfg, d, r.stepId, ticks);
    ReplanEndsPaused(d, r.stepId, ticks);
  }

  lemma {:induction false} AnswerEndsPaused(cfg: Config, c: Context, r: StepResult, ticks: seq<Tick>)
    requires c.machine.StateOf(r.stepId) == StepRunning && c.machine.status in {Running, Paused, Cancelled}
    ensures var d := Record(cfg, c, r);
      EndsPaused(if r.success then Succeed(d, r.stepId, ticks) else Fail(cfg, d, r, ticks))
      <==> c.machine.status == Paused && LastWord(cfg, c, r)
  {
    RecordEffects(cfg, c, r);
    if r.success {
      SucceedEndsPaused(Record(cfg, c, r), r.stepId, ticks);
    } else {
      FailEndsPaused(cfg, Record(cfg, c, r), r, ticks);
    }
  }

  // ---- One iteration ----------------------------------------------------------------------------

  lemma {:induction false} RunStepEndsPaused(cfg: Config, c: Context, id: string, ticks: seq<Tick>)
    requires Books(cfg, c) && c.machine.status in {Running, Cancelled}
    ensures EndsPaused(RunStep(cfg, c, id, ticks)) <==> AnsweredPaused(cfg, c, id, ticks)
  {
    if Begin(c, id).flow == Continue && ticks != [] {
      AnswerArrives(cfg, c, id, ticks[0].actions);
      StillOpen(Begin(c, id).c, ticks[0].actions);
      AnswerEndsPaused(cfg, ActAll(Begin(c, id).c, ticks[0].actions), ResultOf(id, ticks[0].answer), ticks[1..]);
    }
  }

  lemma {:induction false} StillOpen(c: Context, actions: seq<Action>)
    requires c.machine.status in {Running, Paused, Cancelled}
    ensures ActAll(c, actions).machine.status in {Running, Paused, Cancelled}
    decreases |actions|
  {
    if actions != [] {
      StillOpen(Act(c, actions[0]), actions[1..]);
    }
  }

  lemma {:induction false} WaitOpens(c: Context, ticks: seq<Tick>)
    requires c.machine.status in {Running, Paused, Cancelled}
    ensures var w := WaitForResume(c, ticks);
      w.flow == Starved || (w.flow == Continue && w.c.machine.status in {Running, Cancelled})
    decreases |ticks|
  {
    if c.machine.status == Paused && ticks != [] {
      StillOpen(c, ticks[0].actions);
      WaitOpens(ActAll(c, ticks[0].actions), ticks[1..]);
    }
  }

  lemma {:induction false} IterateEndsPaused(cfg: Config, c: Context, ticks: seq<Tick>)
    requires Books(cfg, c) && c.machine.status in {Running, Paused, Cancelled}
    ensures EndsPaused(Iterate(cfg, c, ticks)) <==> PausedAtLastWord(cfg, c, ticks)
  {
    if !c.aborted {
      WaitOpens(c, ticks);
      WaitKeepsBooks(c, ticks);
      var w := WaitForResume(c, ticks);
      SameBooksTransfer(cfg, c, w.c);
      if w.flow == Continue && w.c.CurrentStep().Some? {
        RunStepEndsPaused(cfg, w.c, w.c.CurrentStep().value.id, w.ticks);
      }
    }
  }

  // ---- Whole runs -----------------------------------------------------------------------------------

  // After some number of iterations the loop comes to a head whose answer is the last word on a paused run.
  ghost predicate PausedAtTheEnd(cfg: Config, c: Context, ticks: seq<Tick>) {
    exists n: nat :: PausedAfter(cfg, HeadAfter(cfg, c, ticks, n))
  }

  ghost predicate PausedAfter(cfg: Config, head: Option<Stage>) {
    head.Some? && PausedAtLastWord(cfg, head.value.c, head.value.ticks)
  }

  lemma {:induction false} FirstHead(cfg: Config, c: Context, ticks: seq<Tick>)
    requires PausedAtLastWord(cfg, c, ticks)
    ensures PausedAtTheEnd(cfg, c, ticks)
  {
    assert PausedAfter(cfg, HeadAfter(cfg, c, ticks, 0));
  }

  lemma {:induction false} LaterHead(cfg: Config, c: Context, ticks: seq<Tick>, s: Stage)
    requires s == Iterate(cfg, c, ticks) && PausedFrom(cfg, s)
    ensures PausedAtTheEnd(cfg, c, ticks)
  {
    var n: nat :| PausedAfter(cfg, HeadAfter(cfg, s.c, s.ticks, n));
    assert HeadAfter(cfg, c, ticks, n + 1) == HeadFrom(cfg, s, n);
  }

  lemma {:induction false} SomeHead(cfg: Config, c: Context, ticks: seq<Tick>, s: Stage)
    requires s == Iterate(cfg, c, ticks) && PausedAtTheEnd(cfg, c, ticks)
    ensures PausedAtLastWord(cfg, c, ticks) || PausedFrom(cfg, s)
  {
    var n: nat :| PausedAfter(cfg, HeadAfter(cfg, c, ticks, n));
    SomeHeadAt(cfg, c, ticks, s, n, HeadAfter(cfg, c, ticks, n));
  }

  lemma {:induction false} SomeHeadAt(cfg: Config, c: Context, ticks: seq<Tick>, s: Stage, n: nat, head: Option<Stage>)
    requires head == if n == 0 then Some(Stage(c, Continue, ticks)) else HeadFrom(cfg, s, n - 1)
    requires PausedAfter(cfg, head)
    ensures PausedAtLastWord(cfg, c, ticks) || PausedFrom(cfg, s)
  {
    if n > 0 {
      HeadsFrom(cfg, s, n - 1);
    }
  }

  lemma {:induction false} HeadsFrom(cfg: Config, s: Stage, n: nat)
    requires PausedAfter(cfg, HeadFrom(cfg, s, n))
    ensures PausedFrom(cfg, s)
  {
    assert PausedAfter(cfg, HeadAfter(cfg, s.c, s.ticks, n));
  }

  lemma {:induction false} NextHeads(cfg: Config, c: Context, ticks: seq<Tick>, s: Stage)
    requires s == Iterate(cfg, c, ticks)
    ensures PausedAtTheEnd(cfg, c, ticks) <==> PausedAtLastWord(cfg, c, ticks) || PausedFrom(cfg, s)
  {
    if PausedAtTheEnd(cfg, c, ticks) {
      SomeHead(cfg, c, ticks, s);
    } else if PausedAtLastWord(cfg, c, ticks) {
      FirstHead(cfg, c, ticks);
    } else if PausedFrom(cfg, s) {
      LaterHead(cfg, c, ticks, s);
    }
  }

  ghost predicate PausedFrom(cfg: Config, s: Stage) {
    s.flow == Continue && PausedAtTheEnd(cfg, s.c, s.ticks)
  }

  lemma {:induction false} LoopEndsPaused(cfg: Config, c: Context, ticks: seq<Tick>)
    requires Books(cfg, c) && AtHead(c)
    ensures EndsPaused(LoopEnd(cfg, c, ticks)) <==> PausedAtTheEnd(cfg, c, ticks)
    decreases |ticks|
  {
    var s := Iterate(cfg, c, ticks);
    IterateEndsPaused(cfg, c, ticks);
    NextHeads(cfg, c, ticks, s);
    IterateStage(cfg, c, ticks);
    Anything(c, ticks);
    IterateStatus(cfg, c, ticks, ANYTHING);
    if s.flow == Continue {
      LoopEndsPaused(cfg, s.c, s.ticks);
    }
  }

  // A run rejects if and only if at one of its loop heads the executor's answer finds it paused and leaves
  // nothing to go on with.
  lemma {:induction false} RejectionTheorem(cfg: Config, plan: Plan, aborted: bool, ticks: seq<Tick>)
    ensures Execute(cfg, Fresh(plan, aborted), ticks).1 == Rejected
        <==> PausedAtTheEnd(cfg, Start(Fresh(plan, aborted)), ticks)
  {
    var c := Start(Fresh(plan, aborted));
    StartBooks(cfg, plan, aborted);
    assert !CancelAnnounced(c);
    LoopEndsPaused(cfg, c, ticks);
    Anything(c, ticks);
    LoopStatus(cfg, c, ticks, ANYTHING);
    SettleStatus(LoopEnd(cfg, c, ticks), ANYTHING);
  }
}
