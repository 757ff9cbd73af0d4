// How a run can end: statuses, exceptions and cancellation.
module ExecutionOutcomes {
  import opened Basics
  import opened Plans
  import opened ExecutionState
  import opened ExecutionHistory
  import opened ExecutionRetry
  import opened ExecutionRun
  import ExecutionAccounting

  ghost predicate CancelIn(events: seq<Event>) {
    exists i :: 0 <= i < |events| && events[i].ExecutionCancelled?
  }

  ghost predicate CancelAnnounced(c: Context) {
    CancelIn(c.events)
  }

  // A started run that has not ended: its status, and that cancellation is both announced and final.
  ghost predicate Live(c: Context) {
    && c.machine.status in {Running, Paused, Replanning, Cancelled}
    && (CancelAnnounced(c) <==> c.machine.status == Cancelled)
  }

  ghost predicate AtHead(c: Context) {
    Live(c) && c.machine.status != Replanning
  }

  lemma {:induction false} EmitKeepsCancel(c: Context, e: Event)
    ensures CancelAnnounced(c.Emit(e)) <==> CancelAnnounced(c) || e.ExecutionCancelled?
  {
    var d := c.Emit(e);
    if CancelAnnounced(c) {
      var i :| 0 <= i < |c.events| && c.events[i].ExecutionCancelled?;
      assert d.events[i].ExecutionCancelled?;
    }
    if e.ExecutionCancelled? {
      assert d.events[|c.events|].ExecutionCancelled?;
    }
  }

  // Nobody has done anything but what is allowed.
  ghost predicate Obeys(allowed: set<Action>, c: Context) {
    && (Pause !in allowed ==> c.machine.status != Paused)
    && (Cancel !in allowed ==> c.machine.status != Cancelled)
    && (Abort !in allowed ==> !c.aborted)
  }

  ghost predicate OnlyActions(allowed: set<Action>, actions: seq<Action>) {
    forall a :: a in actions ==> a in allowed
  }

  ghost predicate Only(allowed: set<Action>, ticks: seq<Tick>) {
    forall t :: t in ticks ==> OnlyActions(allowed, t.actions)
  }

  const ANYTHING: set<Action> := {Pause, Resume, Cancel, Abort}
  const NO_PAUSE: set<Action> := {Resume, Cancel, Abort}
  const NO_STOP: set<Action> := {Pause, Resume}

  lemma {:induction false} Anything(c: Context, ticks: seq<Tick>)
    ensures Obeys(ANYTHING, c) && Only(ANYTHING, ticks)
  {
    forall a: Action
      ensures a in ANYTHING
    {
      match a
      case Pause =>
      case Resume =>
      case Cancel =>
      case Abort =>
    }
  }

  lemma {:induction false} ActStatus(c: Context, a: Action)
    requires Live(c)
    ensures Live(Act(c, a))
    ensures c.machine.status == Cancelled ==> Act(c, a).machine.status == Cancelled
    ensures c.machine.status != Replanning ==> Act(c, a).machine.status != Replanning
    ensures forall allowed :: a in allowed && Obeys(allowed, c) ==> Obeys(allowed, Act(c, a))
    ensures c.machine.status == Replanning ==> Act(c, a).machine.status in {Replanning, Cancelled}
  {
    var d := Act(c, a);
    if |d.events| > |c.events| {
      EmitKeepsCancel(c, d.events[|c.events|]);
      assert d.events == c.Emit(d.events[|c.events|]).events;
    }
  }

  lemma {:induction false} ActAllStatus(c: Context, actions: seq<Action>)
    requires Live(c)
    ensures Live(ActAll(c, actions))
    ensures c.machine.status == Cancelled ==> ActAll(c, actions).machine.status == Cancelled
    ensures c.machine.status != Replanning ==> ActAll(c, actions).machine.status != Replanning
    ensures forall allowed :: OnlyActions(allowed, actions) && Obeys(allowed, c) ==> Obeys(allowed, ActAll(c, actions))
    ensures c.machine.status == Replanning ==> ActAll(c, actions).machine.status in {Replanning, Cancelled}
    decreases |actions|
  {
    if actions != [] {
      ActStatus(c, actions[0]);
      ActAllStatus(Act(c, actions[0]), actions[1..]);
    }
  }

  ghost predicate PauseFree(ticks: seq<Tick>) {
    Only(NO_PAUSE, ticks)
  }

  lemma {:induction false} WaitStatus(c: Context, ticks: seq<Tick>)
    requires AtHead(c)
    ensures var s := WaitForResume(c, ticks);
      && AtHead(s.c) && (s.flow == Continue || s.flow == Starved)
      && (s.flow == Continue ==> s.c.machine.status != Paused)
      && (c.machine.status != Paused ==> s == Stage(c, Continue, ticks))
      && (c.machine.status == Cancelled ==> s.c.machine.status == Cancelled)
      && (forall allowed :: Only(allowed, ticks) && Obeys(allowed, c) ==> Obeys(allowed, s.c) && Only(allowed, s.ticks))
    decreases |ticks|
  {
    if c.machine.status == Paused && ticks != [] {
      ActAllStatus(c, ticks[0].actions);
      WaitStatus(ActAll(c, ticks[0].actions), ticks[1..]);
    }
  }

  ghost predicate StageStatus(s: Stage, allowed: set<Action>) {
    && Live(s.c)
    && Obeys(allowed, s.c) && Only(allowed, s.ticks)
    && (s.flow == Throw(SignalAborted) ==> s.c.aborted)
    && (s.flow == Continue || s.flow == Break || s.flow == Throw(SignalAborted) ==> AtHead(s.c))
  }

  lemma {:induction false} RecordStatus(cfg: Config, c: Context, r: StepResult)
    requires Live(c)
    ensures Live(Record(cfg, c, r)) && Record(cfg, c, r).machine == c.machine
  {
    var d := Record(cfg, c, r);
    if cfg.enableCheckpoints {
      EmitKeepsCancel(c, d.events[|c.events|]);
      assert d.events == c.Emit(d.events[|c.events|]).events;
    }
  }

  lemma {:induction false} RetryStatus(cfg: Config, c: Context, id: string, ticks: seq<Tick>, allowed: set<Action>)
    requires AtHead(c) && Obeys(allowed, c) && Only(allowed, ticks)
    ensures StageStatus(Retry(cfg, c, id, ticks), allowed)
    ensures c.machine.status == Cancelled ==> Retry(cfg, c, id, ticks).c.machine.status == Cancelled
  {
    var attempt := AttemptsOf(c.attempts, id) + 1;
    var c1 := c.(attempts := c.attempts[id := attempt]);
    var e := RetryStarted(id, attempt, RetryDelay(attempt, cfg.retryPolicy));
    EmitKeepsCancel(c1, e);
    assert CancelAnnounced(c1) == CancelAnnounced(c);
    if attempt < cfg.retryPolicy.maxAttempts && ticks != [] {
      var c2 := c1.Emit(e);
      var c3 := c2.(machine := c2.machine.Step(id, StepRetrying));
      assert CancelAnnounced(c3) == CancelAnnounced(c2);
      ActAllStatus(c3, ticks[0].actions);
    }
  }

  lemma {:induction false} ReplanStatus(c: Context, id: string, ticks: seq<Tick>, allowed: set<Action>)
    requires AtHead(c) && Obeys(allowed, c) && Only(allowed, ticks)
    ensures StageStatus(RequestReplan(c, id, ticks), allowed)
    ensures c.machine.status == Cancelled ==> RequestReplan(c, id, ticks).c.machine.status == Cancelled
  {
    if c.machine.status == Running {
      var c1 := c.(history := c.history.Add(ReplanRequested(id)));
      var c2 := c1.(machine := c1.machine.Move(Replanning));
      assert CancelAnnounced(c2) == CancelAnnounced(c);
      if ticks != [] {
        ActAllStatus(c2, ticks[0].actions);
      }
    }
  }

  lemma {:induction false} SucceedStatus(c: Context, id: string, ticks: seq<Tick>)
    requires AtHead(c)
    ensures AtHead(Succeed(c, id, ticks).c)
    ensures Succeed(c, id, ticks).c.machine.status == c.machine.status
  {
    EmitKeepsCancel(c, StepCompletedEvent(id));
    EmitKeepsCancel(c.Emit(StepCompletedEvent(id)), Progress(id, c.CompletedCount(), |c.Steps()|));
  }

  lemma {:induction false} FailStatus(cfg: Config, c: Context, r: StepResult, ticks: seq<Tick>, allowed: set<Action>)
    requires AtHead(c) && Obeys(allowed, c) && Only(allowed, ticks)
    ensures StageStatus(Fail(cfg, c, r, ticks), allowed)
    ensures c.machine.status == Cancelled ==> Fail(cfg, c, r, ticks).c.machine.status == Cancelled
  {
    var d := c.(machine := c.machine.Step(r.stepId, StepFailed)).Emit(StepFailedEvent(r.stepId, r.errorCode));
    EmitKeepsCancel(c, StepFailedEvent(r.stepId, r.errorCode));
    assert d.events == c.Emit(StepFailedEvent(r.stepId, r.errorCode)).events;
    assert AtHead(d);
    RetryStatus(cfg, d, r.stepId, ticks, allowed);
    ReplanStatus(d, r.stepId, ticks, allowed);
  }

  lemma {:induction false} BeginStatus(c: Context, id: string)
    requires AtHead(c)
    ensures AtHead(Begin(c, id).c) && Begin(c, id).c.machine.status == c.machine.status
  {
    EmitKeepsCancel(c, StepStartedEvent(id, c.index));
    assert Begin(c, id).flow == Continue ==> Begin(c, id).c.events == c.Emit(StepStartedEvent(id, c.index)).events;
  }

  lemma {:induction false} RunStepStatus(cfg: Config, c: Context, id: string, ticks: seq<Tick>, allowed: set<Action>)
    requires AtHead(c) && Obeys(allowed, c) && Only(allowed, ticks)
    ensures StageStatus(RunStep(cfg, c, id, ticks), allowed)
    ensures c.machine.status == Cancelled ==> RunStep(cfg, c, id, ticks).c.machine.status == Cancelled
  {
    BeginStatus(c, id);
    var begun := Begin(c, id);
    if begun.flow == Continue && ticks != [] {
      var r := ResultOf(id, ticks[0].answer);
      ActAllStatus(begun.c, ticks[0].actions);
      var d := ActAll(begun.c, ticks[0].actions);
      RecordStatus(cfg, d, r);
      assert Only(allowed, ticks[1..]);
      if r.success {
        SucceedStatus(Record(cfg, d, r), id, ticks[1..]);
      } else {
        FailStatus(cfg, Record(cfg, d, r), r, ticks[1..], allowed);
      }
    }
  }

  lemma {:induction false} IterateStatus(cfg: Config, c: Context, ticks: seq<Tick>, allowed: set<Action>)
    requires AtHead(c) && Obeys(allowed, c) && Only(allowed, ticks)
    ensures StageStatus(Iterate(cfg, c, ticks), allowed)
    ensures c.machine.status == Cancelled ==> Iterate(cfg, c, ticks).c.machine.status == Cancelled
  {
    WaitStatus(c, ticks);
    var w := WaitForResume(c, ticks);
    if !c.aborted && w.flow == Continue && w.c.CurrentStep().Some? {
      RunStepStatus(cfg, w.c, w.c.CurrentStep().value.id, w.ticks, allowed);
    }
  }

  lemma {:induction false} LoopStatus(cfg: Config, c: Context, ticks: seq<Tick>, allowed: set<Action>)
    requires AtHead(c) && Obeys(allowed, c) && Only(allowed, ticks)
    ensures StageStatus(LoopEnd(cfg, c, ticks), allowed)
    ensures c.machine.status == Cancelled ==> LoopEnd(cfg, c, ticks).c.machine.status == Cancelled
    decreases |ticks|
  {
    IterateStatus(cfg, c, ticks, allowed);
    var s := Iterate(cfg, c, ticks);
    if s.flow == Continue {
      LoopStatus(cfg, s.c, s.ticks, allowed);
    }
  }

  lemma {:induction false} SettleStatus(s: Stage, allowed: set<Action>)
    requires s.flow != Continue && StageStatus(s, allowed)
    ensures var (d, outcome) := Settle(s);
      && (CancelAnnounced(d) <==> d.machine.status == Cancelled)
      && (s.c.machine.status == Cancelled ==> d.machine.status == Cancelled)
      && match outcome {
           case Returned => IsTerminal(d.machine.status)
           case Rejected => d.machine.status == Paused && Pause in allowed
           case Suspended => s.flow == Starved && d == s.c
         }
      && (outcome == Rejected <==>
          s.c.machine.status == Paused && s.flow != Starved && s.flow != Throw(SignalAborted))
  {
    var (d, outcome) := Settle(s);
    if |d.events| > |s.c.events| {
      EmitKeepsCancel(s.c, d.events[|s.c.events|]);
      assert d.events == s.c.Emit(d.events[|s.c.events|]).events;
    }
  }

  // However the environment acts at the await points, a run that ends without an exception is completed,
  // failed or cancelled; an exception leaves it paused, and never comes without a pause; and
  // a cancellation, once announced, is the final word.
  lemma {:induction false} OutcomeTheorem(cfg: Config, plan: Plan, aborted: bool, ticks: seq<Tick>)
    ensures var (d, outcome) := Execute(cfg, Fresh(plan, aborted), ticks);
      && (outcome == Returned ==> IsTerminal(d.machine.status))
      && (outcome == Rejected ==> d.machine.status == Paused && !PauseFree(ticks))
      && (CancelAnnounced(d) <==> d.machine.status == Cancelled)
  {
    var c := Start(Fresh(plan, aborted));
    var allowed := if PauseFree(ticks) then NO_PAUSE else ANYTHING;
    Anything(c, ticks);
    assert !CancelAnnounced(c);
    LoopStatus(cfg, c, ticks, allowed);
    SettleStatus(LoopEnd(cfg, c, ticks), allowed);
  }

  // ---- Which end a run comes to -------------------------------------------------------------------

  // The context with its last status, entry and event.
  ghost function Closed(c: Context, last: Status, e: Event): Context {
    Context(Machine(last, c.machine.steps), Log(c.history.entries + [Finished(last)], c.history.results), c.attempts,
            c.plan, c.index, c.results, c.checkpoints, c.aborted, c.events + [e])
  }

  // A step that failed for good, or could not be started, while nobody had paused or cancelled.
  ghost predicate EndsInFault(s: Stage) {
    s.flow.Throw? && s.flow.fault != SignalAborted && s.c.machine.status in {Running, Replanning}
  }

  ghost predicate EndsStopped(s: Stage) {
    s.flow == Throw(SignalAborted) || (s.flow.Throw? && s.c.machine.status == Cancelled)
  }

  // What becomes of the stage in which the loop ends, case by case.
  lemma {:induction false} SettledAs(s: Stage)
    requires s.flow != Continue && StageStatus(s, ANYTHING)
    ensures s.flow == Starved ==> Settle(s) == (s.c, Suspended)
    ensures s.flow == Break && s.c.machine.status == Running ==>
      Settle(s) == (Closed(s.c, Completed,
                           ExecutionCompleted(|Successes(s.c.results)|, |s.c.Steps()|, SumAttempts(s.c.attempts))),
                    Returned)
    ensures s.flow == Break && s.c.machine.status == Cancelled ==> Settle(s) == (s.c, Returned)
    ensures EndsInFault(s) ==>
      var step := if s.c.CurrentStep().Some? then Some(s.c.CurrentStep().value.id) else None;
      Settle(s) == (Closed(s.c, Failed, ExecutionFailed(step)), Returned)
    ensures EndsStopped(s) ==>
      Settle(s) == (Closed(s.c, Cancelled, ExecutionCancelled(|Successes(s.c.results)|)), Returned)
    ensures s.c.machine.status == Paused && s.flow != Starved && s.flow != Throw(SignalAborted) ==>
      Settle(s) == (s.c, Rejected)
  {
  }

  // Without a plan `execute` does nothing but reject; on a context that runs or has ended it only adds an entry first.
  lemma {:induction false} RefusesToRun(cfg: Config, c: Context, ticks: seq<Tick>)
    requires c.plan == None || c.machine.status in {Running, Completed, Cancelled, Failed}
    ensures c.plan == None ==> Execute(cfg, c, ticks) == (c, Rejected)
    ensures c.plan != None ==> Execute(cfg, c, ticks) == (c.(history := c.history.Add(Started)), Rejected)
  {
    assert c.plan != None ==> Running !in NextStatuses(c.machine.status);
  }

  // A run is cancelled only if it was aborted from the start, or somebody cancelled or aborted it.
  lemma {:induction false} CancelledOnlyIfStopped(cfg: Config, plan: Plan, aborted: bool, ticks: seq<Tick>)
    requires Execute(cfg, Fresh(plan, aborted), ticks).0.machine.status == Cancelled
    ensures aborted || exists t :: t in ticks && (Cancel in t.actions || Abort in t.actions)
  {
    if !aborted && Only(NO_STOP, ticks) {
      var c := Start(Fresh(plan, aborted));
      assert !CancelAnnounced(c);
      LoopStatus(cfg, c, ticks, NO_STOP);
      StageAllows(LoopEnd(cfg, c, ticks), NO_STOP);
      SettledAs(LoopEnd(cfg, c, ticks));
    }
    Anything(Fresh(plan, aborted), ticks);
    forall t, a | t in ticks && a in t.actions && !(Cancel in t.actions || Abort in t.actions)
      ensures a in NO_STOP
    {
      assert a in ANYTHING;
    }
  }

  lemma {:induction false} StageAllows(s: Stage, allowed: set<Action>)
    requires StageStatus(s, allowed)
    ensures StageStatus(s, ANYTHING)
  {
    Anything(s.c, s.ticks);
  }

  // An abort that a loop head sees cancels the run.
  lemma {:induction false} AbortedHeadCancels(cfg: Config, c: Context, ticks: seq<Tick>)
    requires AtHead(c) && c.aborted
    ensures var (d, outcome) := Settle(LoopEnd(cfg, c, ticks));
      && outcome == Returned && d.machine.status == Cancelled
      && d.events == c.events + [ExecutionCancelled(|Successes(c.results)|)]
  {
    assert LoopEnd(cfg, c, ticks) == Stage(c, Throw(SignalAborted), ticks);
    Anything(c, ticks);
    SettledAs(Stage(c, Throw(SignalAborted), ticks));
  }

  // A run whose signal was aborted before it started is cancelled before its first step.
  lemma {:induction false} AbortedFromTheStart(cfg: Config, plan: Plan, ticks: seq<Tick>)
    ensures var (d, outcome) := Execute(cfg, Fresh(plan, true), ticks);
      && outcome == Returned && d.machine == Machine(Cancelled, map[]) && d.results == []
      && d.events == [ExecutionStarted(|plan.steps|), ExecutionCancelled(0)]
  {
    var c := Start(Fresh(plan, true));
    assert !CancelAnnounced(c);
    assert LoopEnd(cfg, c, ticks) == Stage(c, Throw(SignalAborted), ticks);
    Anything(c, ticks);
    SettledAs(Stage(c, Throw(SignalAborted), ticks));
  }

  // A loop that a fault ends, unpaused and uncancelled, ends a failed run, and the failure names the current step.
  lemma {:induction false} FaultFails(cfg: Config, plan: Plan, aborted: bool, ticks: seq<Tick>)
    ensures var s := LoopEnd(cfg, Start(Fresh(plan, aborted)), ticks);
      var (d, outcome) := Execute(cfg, Fresh(plan, aborted), ticks);
      && (d.machine.status == Failed <==> EndsInFault(s))
      && (EndsInFault(s) && s.c.CurrentStep().Some? ==>
            && outcome == Returned
            && d.events == s.c.events + [ExecutionFailed(Some(s.c.CurrentStep().value.id))])
  {
    var c := Start(Fresh(plan, aborted));
    assert !CancelAnnounced(c);
    Anything(c, ticks);
    LoopStatus(cfg, c, ticks, ANYTHING);
    SettledAs(LoopEnd(cfg, c, ticks));
  }

  // The last event of a run that has completed or failed.
  ghost predicate ClosedBy(d: Context) {
    && (d.machine.status == Completed ==>
          && d.events != []
          && d.events[|d.events| - 1]
             == ExecutionCompleted(|Successes(d.results)|, |d.Steps()|, SumAttempts(d.attempts)))
    && (d.machine.status == Failed ==>
          && d.events != []
          && d.events[|d.events| - 1]
             == ExecutionFailed(if d.CurrentStep().Some? then Some(d.CurrentStep().value.id) else None))
  }

  lemma {:induction false} ClosingEvent(cfg: Config, plan: Plan, aborted: bool, ticks: seq<Tick>)
    ensures ClosedBy(Execute(cfg, Fresh(plan, aborted), ticks).0)
  {
    var c := Start(Fresh(plan, aborted));
    assert !CancelAnnounced(c);
    Anything(c, ticks);
    LoopStatus(cfg, c, ticks, ANYTHING);
    SettledAs(LoopEnd(cfg, c, ticks));
  }

  // ---- What a batch of actions comes to --------------------------------------------------------------

  // Somebody paused and nobody has resumed since.
  ghost predicate LeavesPaused(actions: seq<Action>, paused: bool) {
    || (exists k :: 0 <= k < |actions| && actions[k] == Pause && Resume !in actions[k..])
    || (paused && Resume !in actions)
  }

  lemma {:induction false} PausedNext(actions: seq<Action>, paused: bool)
    requires actions != []
    ensures LeavesPaused(actions, paused)
        <==> LeavesPaused(actions[1..], if actions[0] == Pause then true else paused && actions[0] != Resume)
  {
    var rest := actions[1..];
    assert actions == [actions[0]] + rest;
    if k :| 0 <= k < |actions| && actions[k] == Pause && Resume !in actions[k..] {
      if k > 0 {
        assert rest[k - 1] == Pause && rest[k - 1..] == actions[k..];
      } else {
        assert actions[k..] == actions;
      }
    }
    if k :| 0 <= k < |rest| && rest[k] == Pause && Resume !in rest[k..] {
      assert actions[k + 1] == Pause && actions[k + 1..] == rest[k..];
    }
    if actions[0] == Pause && Resume !in rest {
      assert actions[0..] == actions;
    }
  }

  // The abort flag stays once raised; a cancellation is final; otherwise the last of pause and resume decides.
  lemma {:induction false} ActionsIs(c: Context, actions: seq<Action>)
    requires c.machine.status in {Running, Paused, Replanning, Cancelled}
    ensures var d := ActAll(c, actions);
      && (d.aborted <==> c.aborted || Abort in actions)
      && (d.machine.status == Cancelled <==> c.machine.status == Cancelled || Cancel in actions)
      && (d.machine.status == Replanning <==> c.machine.status == Replanning && Cancel !in actions)
      && (d.machine.status == Paused <==>
            && c.machine.status in {Running, Paused} && Cancel !in actions
            && LeavesPaused(actions, c.machine.status == Paused))
      && d.machine.status in {Running, Paused, Replanning, Cancelled}
    decreases |actions|
  {
    if actions != [] {
      var a, rest := actions[0], actions[1..];
      assert actions == [a] + rest;
      PausedNext(actions, c.machine.status == Paused);
      ActionsIs(Act(c, a), rest);
    }
  }

  // Cancelled at some loop head: still cancelled at the end, and no exception.
  lemma {:induction false} CancelledStays(cfg: Config, c: Context, ticks: seq<Tick>)
    requires AtHead(c) && c.machine.status == Cancelled
    ensures var (d, outcome) := Settle(LoopEnd(cfg, c, ticks)); d.machine.status == Cancelled && outcome != Rejected
  {
    Anything(c, ticks);
    LoopStatus(cfg, c, ticks, ANYTHING);
    SettleStatus(LoopEnd(cfg, c, ticks), ANYTHING);
  }

  // A pause that lands while the executor works, and an answer of success.
  const PAUSED_SUCCESS := Tick([Pause], Answered(true, None, NO_EFFORT), ReplanThrew)

  lemma {:induction false} LastStepPaused(cfg: Config, c: Context, id: string)
    requires c.machine.status == Running && c.machine.StateOf(id) == StepPending && c.index + 1 == |c.Steps()|
    ensures var s := RunStep(cfg, c, id, [PAUSED_SUCCESS]);
      s.flow == Break && s.c.machine.status == Paused && s.c.index == c.index + 1
  {
    var b := Begin(c, id).c;
    PauseAlone(b);
    var d := Act(b, Pause);
    ExecutionAccounting.RecordKeeps(cfg, d, StepResult(id, true, None, NO_EFFORT));
    assert [PAUSED_SUCCESS][1..] == [];
    var e := Record(cfg, d, StepResult(id, true, None, NO_EFFORT));
    assert RunStep(cfg, c, id, [PAUSED_SUCCESS]) == Succeed(e, id, []);
  }

  lemma {:induction false} PausedBreakRejects(c: Context, ticks: seq<Tick>)
    requires c.machine.status == Paused
    ensures Settle(Stage(c, Break, ticks)) == (c, Rejected)
  {
  }

  // Pausing during the only step is enough to make `execute` reject, although the step succeeded.
  lemma {:induction false} PauseOnLastStepRejects(cfg: Config, step: PlanStep)
    ensures var (d, outcome) := Execute(cfg, Fresh(Plan([step], PlanValidated), false), [PAUSED_SUCCESS]);
      outcome == Rejected && d.machine.status == Paused && d.index == 1
  {
    var c := Start(Fresh(Plan([step], PlanValidated), false));
    LastStepPaused(cfg, c, step.id);
    var s := RunStep(cfg, c, step.id, [PAUSED_SUCCESS]);
    OnlyIteration(cfg, c, step.id, [PAUSED_SUCCESS]);
    PausedBreakRejects(s.c, s.ticks);
  }

  lemma {:induction false} OnlyIteration(cfg: Config, c: Context, id: string, ticks: seq<Tick>)
    requires c.machine.status == Running && !c.aborted
    requires c.CurrentStep().Some? && c.CurrentStep().value.id == id
    requires RunStep(cfg, c, id, ticks).flow == Break
    ensures LoopEnd(cfg, c, ticks) == RunStep(cfg, c, id, ticks)
  {
  }

  lemma {:induction false} PauseAlone(c: Context)
    ensures ActAll(c, [Pause]) == Act(c, Pause)
  {
    assert [Pause][1..] == [];
    assert ActAll(Act(c, Pause), []) == Act(c, Pause);
  }
}
