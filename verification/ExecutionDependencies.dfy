// The loop runs a plan in list order and never reads `dependsOn`.  When that is good enough.
module ExecutionDependencies {
  import opened Basics
  import opened Plans
  import opened ExecutionState
  import opened ExecutionHistory
  import opened ExecutionRetry
  import opened ExecutionRun
  import opened ExecutionAccounting
  import opened ExecutionTrail

  ghost predicate DoneIn(events: seq<Event>, id: string) {
    StepCompletedEvent(id) in events
  }

  // A start of step `s` after the events `before`: its dependencies have completed.
  ghost predicate ReadyAfter(before: seq<Event>, s: PlanStep) {
    forall d :: d in s.dependsOn ==> DoneIn(before, d)
  }

  // No step is ever started before the steps it depends on have succeeded.
  ghost predicate Respects(steps: seq<PlanStep>, events: seq<Event>) {
    forall k, s :: 0 <= k < |events| && s in steps && events[k].StepStartedEvent? && events[k].stepId == s.id
      ==> ReadyAfter(events[..k], s)
  }

  ghost predicate Ready(p: Plan, c: Context) {
    && (forall x :: x in Successes(c.results) <==> DoneIn(c.events, x))
    && (Unreplanned(c) ==> Respects(p.steps, c.events))
  }

  predicate Quiet(e: Event) {
    !e.StepStartedEvent? && !e.StepCompletedEvent?
  }

  lemma {:induction false} RespectsAppend(steps: seq<PlanStep>, events: seq<Event>, e: Event)
    requires Respects(steps, events)
    requires e.StepStartedEvent? ==> forall s :: s in steps && s.id == e.stepId ==> ReadyAfter(events, s)
    ensures Respects(steps, events + [e])
  {
    var after := events + [e];
    forall k, s | 0 <= k < |after| && s in steps && after[k].StepStartedEvent? && after[k].stepId == s.id
      ensures ReadyAfter(after[..k], s)
    {
      if k < |events| {
        assert after[..k] == events[..k];
        assert after[k] == events[k];
      } else {
        assert after[..k] == events;
      }
    }
  }

  // Only the events decide; quiet ones change nothing.
  lemma {:induction false} QuietReady(p: Plan, c: Context, d: Context, e: Event)
    requires Ready(p, c) && Quiet(e)
    requires d.events == c.events + [e]
    requires Successes(d.results) == Successes(c.results) && (Unreplanned(d) ==> Unreplanned(c))
    ensures Ready(p, d)
  {
    if Unreplanned(d) {
      RespectsAppend(p.steps, c.events, e);
    }
    assert forall x :: DoneIn(d.events, x) <==> DoneIn(c.events, x);
  }

  lemma {:induction false} ActReady(p: Plan, c: Context, a: Action)
    requires Ready(p, c)
    ensures Ready(p, Act(c, a))
  {
    ActKeepsBooks(c, a);
    var d := Act(c, a);
    if d.events != c.events {
      QuietReady(p, c, d, d.events[|c.events|]);
    }
  }

  lemma {:induction false} ActAllReady(p: Plan, c: Context, actions: seq<Action>)
    requires Ready(p, c)
    ensures Ready(p, ActAll(c, actions))
    decreases |actions|
  {
    if actions != [] {
      ActReady(p, c, actions[0]);
      ActAllReady(p, Act(c, actions[0]), actions[1..]);
    }
  }

  lemma {:induction false} WaitReady(p: Plan, c: Context, ticks: seq<Tick>)
    requires Ready(p, c)
    ensures Ready(p, WaitForResume(c, ticks).c)
    decreases |ticks|
  {
    if c.machine.status == Paused && ticks != [] {
      ActAllReady(p, c, ticks[0].actions);
      WaitReady(p, ActAll(c, ticks[0].actions), ticks[1..]);
    }
  }

  lemma {:induction false} BeginReady(p: Plan, c: Context)
    requires Ready(p, c) && InOrder(p, c) && c.CurrentStep().Some?
    requires Distinct(Ids(p.steps)) && ForwardOrdered(p.steps)
    ensures Ready(p, Begin(c, c.CurrentStep().value.id).c)
  {
    var id := c.CurrentStep().value.id;
    var e := StepStartedEvent(id, c.index);
    var d := Begin(c, id).c;
    if Begin(c, id).flow == Continue {
      if Unreplanned(c) {
        forall s | s in p.steps && s.id == id
          ensures ReadyAfter(c.events, s)
        {
          var i :| 0 <= i < |p.steps| && p.steps[i] == s;
          assert Ids(p.steps)[i] == Ids(p.steps)[c.index];
        }
        RespectsAppend(p.steps, c.events, e);
      }
      assert forall x :: DoneIn(d.events, x) <==> DoneIn(c.events, x);
    }
  }

  lemma {:induction false} NoStartsAppend(steps: seq<PlanStep>, events: seq<Event>, more: seq<Event>)
    requires Respects(steps, events)
    requires forall e :: e in more ==> !e.StepStartedEvent?
    ensures Respects(steps, events + more)
    decreases |more|
  {
    if more == [] {
      assert events + more == events;
    } else {
      assert more[0] in more;
      RespectsAppend(steps, events, more[0]);
      NoStartsAppend(steps, events + [more[0]], more[1..]);
      assert events + [more[0]] + more[1..] == events + more;
    }
  }

  lemma {:induction false} SucceedEvents(
    cfg: Config, c: Context, r: StepResult, ticks: seq<Tick>) returns (more: seq<Event>)
    requires Succeed(Record(cfg, c, r), r.stepId, ticks).flow != Throw(IllegalTransition)
    ensures Succeed(Record(cfg, c, r), r.stepId, ticks).c.events == c.events + more
    ensures forall e :: e in more ==> !e.StepStartedEvent?
    ensures forall e :: e in more && e.StepCompletedEvent? ==> e.stepId == r.stepId
    ensures StepCompletedEvent(r.stepId) in more
  {
    var d := Record(cfg, c, r);
    var announced := [StepCompletedEvent(r.stepId), Progress(r.stepId, d.CompletedCount(), |d.Steps()|)];
    more := if cfg.enableCheckpoints then [d.events[|c.events|]] + announced else announced;
    assert announced[0] in more;
  }

  lemma {:induction false} RecordSucceedReady(p: Plan, cfg: Config, c: Context, r: StepResult, ticks: seq<Tick>)
    requires Ready(p, c) && r.success
    requires Succeed(Record(cfg, c, r), r.stepId, ticks).flow != Throw(IllegalTransition)
    ensures Ready(p, Succeed(Record(cfg, c, r), r.stepId, ticks).c)
  {
    RecordEffects(cfg, c, r);
    var more := SucceedEvents(cfg, c, r, ticks);
    ReadyAppend(p, c, Succeed(Record(cfg, c, r), r.stepId, ticks).c, r.stepId, more);
  }

  lemma {:induction false} ReadyAppend(p: Plan, c: Context, d: Context, id: string, more: seq<Event>)
    requires Ready(p, c) && d.events == c.events + more
    requires Successes(d.results) == Successes(c.results) + [id] && (Unreplanned(d) ==> Unreplanned(c))
    requires forall e :: e in more ==> !e.StepStartedEvent?
    requires forall e :: e in more && e.StepCompletedEvent? ==> e.stepId == id
    requires StepCompletedEvent(id) in more
    ensures Ready(p, d)
  {
    if Unreplanned(d) {
      NoStartsAppend(p.steps, c.events, more);
    }
    assert forall x :: DoneIn(d.events, x) <==> DoneIn(c.events, x) || x == id;
  }

  lemma {:induction false} RecordFailReady(p: Plan, cfg: Config, c: Context, r: StepResult, ticks: seq<Tick>)
    requires Ready(p, c) && !r.success
    ensures Ready(p, Fail(cfg, Record(cfg, c, r), r, ticks).c)
  {
    FailureRecordedReady(p, cfg, c, r);
    FailReady(p, cfg, Record(cfg, c, r), r, ticks);
  }

  lemma {:induction false} FailureRecordedReady(p: Plan, cfg: Config, c: Context, r: StepResult)
    requires Ready(p, c) && !r.success
    ensures Ready(p, Record(cfg, c, r))
  {
    RecordEffects(cfg, c, r);
    var d := Record(cfg, c, r);
    if d.events != c.events {
      QuietReady(p, c, d, d.events[|c.events|]);
    }
  }

  lemma {:induction false} FailReady(p: Plan, cfg: Config, c: Context, r: StepResult, ticks: seq<Tick>)
    requires Ready(p, c)
    ensures Ready(p, Fail(cfg, c, r, ticks).c)
  {
    var e := StepFailedEvent(r.stepId, r.errorCode);
    var f := c.(machine := c.machine.Step(r.stepId, StepFailed)).Emit(e);
    QuietReady(p, c, f, e);
    RetryReady(p, cfg, f, r.stepId, ticks);
    ReplanReady(p, f, r.stepId, ticks);
  }

  lemma {:induction false} SleptReady(p: Plan, c: Context, id: string, attempt: nat, e: Event)
    requires Ready(p, c) && Quiet(e)
    ensures Ready(p, c.(attempts := c.attempts[id := attempt]))
    ensures var slept := c.(attempts := c.attempts[id := attempt]).Emit(e);
      Ready(p, slept) && Ready(p, slept.(machine := slept.machine.Step(id, StepRetrying)))
  {
    QuietReady(p, c, c.(attempts := c.attempts[id := attempt]).Emit(e), e);
  }

  lemma {:induction false} RetryReady(p: Plan, cfg: Config, c: Context, id: string, ticks: seq<Tick>)
    requires Ready(p, c)
    ensures Ready(p, Retry(cfg, c, id, ticks).c)
  {
    var attempt := AttemptsOf(c.attempts, id) + 1;
    var e := RetryStarted(id, attempt, RetryDelay(attempt, cfg.retryPolicy));
    SleptReady(p, c, id, attempt, e);
    var slept := c.(attempts := c.attempts[id := attempt]).Emit(e);
    if ticks != [] {
      WokenReady(p, slept.(machine := slept.machine.Step(id, StepRetrying)), id, ticks[0].actions);
    }
  }

  lemma {:induction false} WokenReady(p: Plan, slept: Context, id: string, actions: seq<Action>)
    requires Ready(p, slept)
    ensures var woken := ActAll(slept, actions);
      Ready(p, woken) && Ready(p, woken.(machine := woken.machine.Step(id, StepRunning)))
  {
    ActAllReady(p, slept, actions);
  }

  lemma {:induction false} ReplanReady(p: Plan, c: Context, id: string, ticks: seq<Tick>)
    requires Ready(p, c)
    ensures Ready(p, RequestReplan(c, id, ticks).c)
  {
    EntryAppend(c.history.entries, ReplanRequested(id));
    var asked := c.(history := c.history.Add(ReplanRequested(id)));
    assert Ready(p, asked);
    if ticks != [] {
      var d := asked.(machine := asked.machine.Move(Replanning));
      ActAllReady(p, d, ticks[0].actions);
      ActAllKeepsBooks(d, ticks[0].actions);
    }
  }

  lemma {:induction false} RunStepReady(cfg: Config, p: Plan, c: Context, ticks: seq<Tick>)
    requires Books(cfg, c) && InOrder(p, c) && Ready(p, c) && c.CurrentStep().Some?
    requires Distinct(Ids(p.steps)) && ForwardOrdered(p.steps)
    ensures Ready(p, RunStep(cfg, c, c.CurrentStep().value.id, ticks).c)
  {
    var id := c.CurrentStep().value.id;
    BeginReady(p, c);
    BeginStage(cfg, c, id);
    var begun := Begin(c, id);
    if begun.flow == Continue && ticks != [] {
      var d := ActAll(begun.c, ticks[0].actions);
      ActAllReady(p, begun.c, ticks[0].actions);
      ActAllKeepsBooks(begun.c, ticks[0].actions);
      UnderwaySurvives(cfg, begun.c, d, id);
      var r := ResultOf(id, ticks[0].answer);
      RecordStage(cfg, d, r);
      if r.success {
        SucceedStage(cfg, Record(cfg, d, r), id, ticks[1..]);
        RecordSucceedReady(p, cfg, d, r, ticks[1..]);
      } else {
        RecordFailReady(p, cfg, d, r, ticks[1..]);
      }
    }
  }

  lemma {:induction false} IterateReady(cfg: Config, p: Plan, c: Context, ticks: seq<Tick>)
    requires Books(cfg, c) && InOrder(p, c) && Ready(p, c)
    requires Distinct(Ids(p.steps)) && ForwardOrdered(p.steps)
    ensures Ready(p, Iterate(cfg, c, ticks).c)
  {
    if !c.aborted {
      WaitReady(p, c, ticks);
      WaitKeepsBooks(c, ticks);
      var w := WaitForResume(c, ticks);
      SameBooksTransfer(cfg, c, w.c);
      if w.flow == Continue && w.c.CurrentStep().Some? {
        RunStepReady(cfg, p, w.c, w.ticks);
      }
    }
  }

  lemma {:induction false} LoopReady(cfg: Config, p: Plan, c: Context, ticks: seq<Tick>)
    requires Books(cfg, c) && InOrder(p, c) && Ready(p, c)
    requires Distinct(Ids(p.steps)) && ForwardOrdered(p.steps)
    ensures Ready(p, LoopEnd(cfg, c, ticks).c)
    decreases |ticks|
  {
    IterateReady(cfg, p, c, ticks);
    IterateStage(cfg, c, ticks);
    IterateInOrder(cfg, p, c, ticks);
    var s := Iterate(cfg, c, ticks);
    if s.flow == Continue {
      LoopReady(cfg, p, s.c, s.ticks);
    }
  }

  lemma {:induction false} SettleReady(p: Plan, s: Stage)
    requires s.flow != Continue && Ready(p, s.c)
    ensures Ready(p, Settle(s).0)
  {
    SettleKeepsBooks(s);
    var c := s.c;
    ClosingReady(p, c, Cancelled, ExecutionCancelled(c.CompletedCount()));
    ClosingReady(p, c, Completed, ExecutionCompleted(c.CompletedCount(), |c.Steps()|, SumAttempts(c.attempts)));
    ClosingReady(p, c, Failed, ExecutionFailed(if c.CurrentStep().Some? then Some(c.CurrentStep().value.id) else None));
  }

  lemma {:induction false} ClosingReady(p: Plan, c: Context, last: Status, e: Event)
    requires Ready(p, c) && Quiet(e)
    ensures Ready(p, c.(machine := c.machine.Move(last), history := c.history.Add(Finished(last))).Emit(e))
  {
    EntryAppend(c.history.entries, Finished(last));
    QuietReady(p, c, c.(machine := c.machine.Move(last), history := c.history.Add(Finished(last))).Emit(e), e);
  }

  // A plan whose dependencies all point backwards is run without a step ever starting before its dependencies.
  lemma {:induction false} ForwardPlanRespected(cfg: Config, p: Plan, aborted: bool, ticks: seq<Tick>)
    requires Distinct(Ids(p.steps)) && ForwardOrdered(p.steps)
    ensures var d := Execute(cfg, Fresh(p, aborted), ticks).0; Unreplanned(d) ==> Respects(p.steps, d.events)
  {
    var c := Start(Fresh(p, aborted));
    StartBooks(cfg, p, aborted);
    StartReady(p, aborted);
    LoopReady(cfg, p, c, ticks);
    SettleReady(p, LoopEnd(cfg, c, ticks));
  }

  lemma {:induction false} StartReady(p: Plan, aborted: bool)
    ensures Ready(p, Start(Fresh(p, aborted)))
  {
    assert Respects(p.steps, Start(Fresh(p, aborted)).events);
  }

  // ---- The converse ---------------------------------------------------------------------------

  const SUCCESS := Tick([], Answered(true, None, NO_EFFORT), ReplanThrew)

  function Successful(n: nat): (ticks: seq<Tick>)
    ensures |ticks| == n && forall t :: t in ticks ==> t == SUCCESS
  {
    seq(n, _ => SUCCESS)
  }

  // Only the first m steps have been touched, and all of them succeeded.
  ghost predicate Smooth(p: Plan, c: Context, m: nat) {
    && c.plan == Some(p) && c.index == m && m <= |p.steps|
    && c.machine.status == Running && !c.aborted
    && (forall i :: m <= i < |p.steps| ==> c.machine.StateOf(p.steps[i].id) == StepPending)
    && (forall x :: DoneIn(c.events, x) ==> x in Ids(p.steps)[..m])
  }

  lemma {:induction false} SmoothNext(p: Plan, c: Context, d: Context, m: nat)
    requires Smooth(p, c, m) && m < |p.steps| && Distinct(Ids(p.steps))
    requires d.plan == c.plan && d.index == m + 1 && d.machine.status == Running && !d.aborted
    requires d.machine.steps == c.machine.steps[p.steps[m].id := StepCompleted]
    requires forall x :: DoneIn(d.events, x) ==> DoneIn(c.events, x) || x == p.steps[m].id
    ensures Smooth(p, d, m + 1)
  {
    assert Ids(p.steps)[..m + 1] == Ids(p.steps)[..m] + [p.steps[m].id];
    forall i | m + 1 <= i < |p.steps|
      ensures d.machine.StateOf(p.steps[i].id) == StepPending
    {
      assert Ids(p.steps)[i] != Ids(p.steps)[m];
    }
  }

  lemma {:induction false} SmoothStep(cfg: Config, p: Plan, c: Context, m: nat, ticks: seq<Tick>)
    requires Smooth(p, c, m) && m + 1 < |p.steps| && Distinct(Ids(p.steps))
    requires ticks != [] && ticks[0] == SUCCESS
    ensures var s := Iterate(cfg, c, ticks); s.flow == Continue && s.ticks == ticks[1..] && Smooth(p, s.c, m + 1)
  {
    var id := p.steps[m].id;
    var begun := Begin(c, id);
    var r := StepResult(id, true, None, NO_EFFORT);
    assert ActAll(begun.c, []) == begun.c;
    RecordEffects(cfg, begun.c, r);
    var d := Record(cfg, begun.c, r);
    assert Iterate(cfg, c, ticks) == Succeed(d, id, ticks[1..]);
    SmoothEvents(cfg, c, id, ticks[1..]);
    SmoothNext(p, c, Succeed(d, id, ticks[1..]).c, m);
  }

  lemma {:induction false} SmoothEvents(cfg: Config, c: Context, id: string, ticks: seq<Tick>)
    requires c.machine.StateOf(id) == StepPending
    ensures var e := Succeed(Record(cfg, Begin(c, id).c, StepResult(id, true, None, NO_EFFORT)), id, ticks).c;
      forall x :: DoneIn(e.events, x) ==> DoneIn(c.events, x) || x == id
  {
  }

  // The run has just announced step i, and nothing but the steps before it has completed.
  ghost predicate Reached(p: Plan, s: Stage, i: nat)
    requires i < |p.steps|
  {
    && s.flow == Starved
    && s.c.events != []
    && s.c.events[|s.c.events| - 1] == StepStartedEvent(p.steps[i].id, i)
    && (forall x :: DoneIn(s.c.events, x) ==> x in Ids(p.steps)[..i])
  }

  lemma {:induction false} SmoothStart(cfg: Config, p: Plan, c: Context, m: nat)
    requires Smooth(p, c, m) && m < |p.steps|
    ensures Reached(p, Iterate(cfg, c, []), m)
  {
    assert Iterate(cfg, c, []) == RunStep(cfg, c, p.steps[m].id, []);
    var d := Begin(c, p.steps[m].id).c;
    assert d.events == c.events + [StepStartedEvent(p.steps[m].id, m)];
    assert forall x :: DoneIn(d.events, x) ==> DoneIn(c.events, x);
  }

  lemma {:induction false} SmoothRun(cfg: Config, p: Plan, c: Context, m: nat, i: nat)
    requires Smooth(p, c, m) && m <= i < |p.steps| && Distinct(Ids(p.steps))
    ensures Reached(p, LoopEnd(cfg, c, Successful(i - m)), i)
    decreases i - m, 1
  {
    if m == i {
      SmoothStart(cfg, p, c, m);
    } else {
      SmoothStep(cfg, p, c, m, Successful(i - m));
      SmoothOn(cfg, p, Iterate(cfg, c, Successful(i - m)), m, i);
    }
  }

  lemma {:induction false} SmoothOn(cfg: Config, p: Plan, s: Stage, m: nat, i: nat)
    requires m < i < |p.steps| && Distinct(Ids(p.steps))
    requires Smooth(p, s.c, m + 1) && s.ticks == Successful(i - m)[1..]
    ensures Reached(p, LoopEnd(cfg, s.c, s.ticks), i)
    decreases i - m, 0
  {
    assert Successful(i - m)[1..] == Successful(i - (m + 1));
    SmoothRun(cfg, p, s.c, m + 1, i);
  }

  lemma {:induction false} ReachedViolates(p: Plan, s: Stage, i: nat, d: string)
    requires i < |p.steps| && Reached(p, s, i)
    requires d in p.steps[i].dependsOn && d !in Ids(p.steps)[..i]
    ensures !Respects(p.steps, s.c.events)
  {
    var k := |s.c.events| - 1;
    assert p.steps[i] in p.steps && s.c.events[k].stepId == p.steps[i].id;
    assert DoneIn(s.c.events[..k], d) ==> DoneIn(s.c.events, d);
    assert !ReadyAfter(s.c.events[..k], p.steps[i]);
  }

  lemma {:induction false} BackwardPlanViolates(cfg: Config, p: Plan, i: nat, d: string)
    requires Distinct(Ids(p.steps)) && i < |p.steps|
    requires d in p.steps[i].dependsOn && d !in Ids(p.steps)[..i]
    ensures !Respects(p.steps, Execute(cfg, Fresh(p, false), Successful(i)).0.events)
  {
    var c := Start(Fresh(p, false));
    assert Smooth(p, c, 0) by {
      assert forall x :: !DoneIn(c.events, x);
    }
    SmoothRun(cfg, p, c, 0, i);
    ReachedViolates(p, LoopEnd(cfg, c, Successful(i)), i, d);
  }

  // The loop respects the dependencies of a plan in every run exactly when the plan lists each step
  // after everything it depends on; the loop itself contributes nothing.
  lemma {:induction false} DependenciesRespectedIff(cfg: Config, p: Plan)
    requires Distinct(Ids(p.steps)) && !cfg.canReplan
    ensures (forall ticks :: Respects(p.steps, Execute(cfg, Fresh(p, false), ticks).0.events))
        <==> ForwardOrdered(p.steps)
  {
    if ForwardOrdered(p.steps) {
      forall ticks
        ensures Respects(p.steps, Execute(cfg, Fresh(p, false), ticks).0.events)
      {
        ForwardPlanRespected(cfg, p, false, ticks);
        NeverReplanned(cfg, p, ticks);
      }
    } else {
      var i, d :| 0 <= i < |p.steps| && d in p.steps[i].dependsOn && d !in Ids(p.steps)[..i];
      BackwardPlanViolates(cfg, p, i, d);
    }
  }

  lemma {:induction false} NeverReplanned(cfg: Config, p: Plan, ticks: seq<Tick>)
    requires !cfg.canReplan
    ensures Unreplanned(Execute(cfg, Fresh(p, false), ticks).0)
  {
    var c := Start(Fresh(p, false));
    StartBooks(cfg, p, false);
    LoopUnreplanned(cfg, c, ticks);
    SettleKeepsBooks(LoopEnd(cfg, c, ticks));
  }

  lemma {:induction false} LoopUnreplanned(cfg: Config, c: Context, ticks: seq<Tick>)
    requires !cfg.canReplan && Unreplanned(c)
    ensures Unreplanned(LoopEnd(cfg, c, ticks).c)
    decreases |ticks|
  {
    if !c.aborted {
      WaitKeepsBooks(c, ticks);
      var w := WaitForResume(c, ticks);
      if w.flow == Continue && w.c.CurrentStep().Some? {
        var id := w.c.CurrentStep().value.id;
        StepUnreplanned(cfg, w.c, id, w.ticks);
        var s := RunStep(cfg, w.c, id, w.ticks);
        assert s == Iterate(cfg, c, ticks);
        if s.flow == Continue {
          LoopUnreplanned(cfg, s.c, s.ticks);
        }
      }
    }
  }

  lemma {:induction false} StepUnreplanned(cfg: Config, c: Context, id: string, ticks: seq<Tick>)
    requires !cfg.canReplan && Unreplanned(c)
    ensures Unreplanned(RunStep(cfg, c, id, ticks).c)
  {
    var begun := Begin(c, id);
    if begun.flow == Continue && ticks != [] {
      ActAllKeepsBooks(begun.c, ticks[0].actions);
      var d := ActAll(begun.c, ticks[0].actions);
      var r := ResultOf(id, ticks[0].answer);
      RecordEffects(cfg, d, r);
      var e := Record(cfg, d, r);
      var f := e.(machine := e.machine.Step(id, StepFailed)).Emit(StepFailedEvent(id, r.errorCode));
      RetryUnreplanned(cfg, f, id, ticks[1..]);
    }
  }

  lemma {:induction false} RetryUnreplanned(cfg: Config, c: Context, id: string, ticks: seq<Tick>)
    requires Unreplanned(c)
    ensures Unreplanned(Retry(cfg, c, id, ticks).c)
  {
    if ticks != [] {
      var attempt := AttemptsOf(c.attempts, id) + 1;
      var slept := c.(attempts := c.attempts[id := attempt])
                   .Emit(RetryStarted(id, attempt, RetryDelay(attempt, cfg.retryPolicy)));
      ActAllKeepsBooks(slept.(machine := slept.machine.Step(id, StepRetrying)), ticks[0].actions);
    }
  }
}
