// What the history and the checkpoints of every run record, entry by entry.
module ExecutionRecords {
  import opened Basics
  import opened Plans
  import opened ExecutionState
  import opened ExecutionHistory
  import opened ExecutionCheckpoint
  import opened ExecutionRetry
  import opened ExecutionRun
  import opened ExecutionAccounting
  import opened ExecutionStages
  import opened ExecutionOutcomes
  import opened ExecutionTrail

  // ---- Reading the records ---------------------------------------------------------------------

  // The results a history has entries for.
  function Recorded(entries: seq<Entry>): seq<(string, bool, real)> {
    if entries == [] then []
    else
      var n := |entries| - 1;
      var e := entries[n];
      Recorded(entries[..n]) + if e.StepRecorded? then [(e.stepId, e.success, e.durationMs)] else []
  }

  function Reports(results: seq<StepResult>): (reports: seq<(string, bool, real)>)
    ensures |reports| == |results|
    ensures forall i :: 0 <= i < |results| ==>
      reports[i] == (results[i].stepId, results[i].success, results[i].effort.durationMs)
  {
    Map(results, (r: StepResult) => (r.stepId, r.success, r.effort.durationMs))
  }

  // Each step's last result.
  function Latest(results: seq<StepResult>): map<string, StepResult> {
    if results == [] then map[]
    else
      var n := |results| - 1;
      Latest(results[..n])[results[n].stepId := results[n]]
  }

  // A replanning request comes right after the failure it is about.
  ghost predicate RequestsFollow(entries: seq<Entry>) {
    forall k :: 0 <= k < |entries| && entries[k].ReplanRequested? ==>
      && k > 0 && entries[k - 1].StepRecorded?
      && entries[k - 1].stepId == entries[k].failedStep && !entries[k - 1].success
  }

  ghost predicate StartsOnce(entries: seq<Entry>) {
    entries != [] && forall k :: 0 <= k < |entries| ==> (entries[k].Started? <==> k == 0)
  }

  // The entry that closes a history names the status the run has.
  ghost predicate FinishedAs(entries: seq<Entry>, status: Status) {
    forall k :: 0 <= k < |entries| && entries[k].Finished? ==> entries[k].status == status && IsTerminal(status)
  }

  ghost predicate HistoryFiled(c: Context) {
    && Recorded(c.history.entries) == Reports(c.results)
    && c.history.results == Latest(c.results)
    && RequestsFollow(c.history.entries) && StartsOnce(c.history.entries)
    && FinishedAs(c.history.entries, c.machine.status)
  }

  // The step checkpoints, in the order of their results.
  function StepCheckpoints(checkpoints: seq<Checkpoint>): seq<Checkpoint> {
    if checkpoints == [] then []
    else
      var n := |checkpoints| - 1;
      StepCheckpoints(checkpoints[..n]) + if checkpoints[n].status == Pending then [] else [checkpoints[n]]
  }

  // The j-th step checkpoint tells what was known when the j-th result was in.
  ghost predicate TakenThen(k: Checkpoint, results: seq<StepResult>, j: nat)
    requires j < |results|
  {
    && k.current == results[j].stepId && k.completed == Successes(results[..j + 1])
    && k.statistics == Log([], Latest(results[..j + 1])).Tally()
    && k.status in {Running, Paused, Cancelled}
  }

  ghost predicate CheckpointsFiled(cfg: Config, p: Plan, c: Context) {
    var taken := StepCheckpoints(c.checkpoints);
    && (forall i :: 0 <= i < |c.checkpoints| ==> c.checkpoints[i].number == i)
    && (p.steps != [] ==> c.checkpoints != [] && InitialOf(c.checkpoints[0], p))
    && |taken| == (if cfg.enableCheckpoints then |c.results| else 0)
    && forall j :: 0 <= j < |taken| ==> TakenThen(taken[j], c.results, j)
  }

  // The checkpoints the log announces: number and completed steps.
  function Announced(events: seq<Event>): seq<(nat, nat)> {
    if events == [] then []
    else
      var n := |events| - 1;
      var e := events[n];
      Announced(events[..n]) + if e.CheckpointCreated? then [(e.number, e.completedSteps)] else []
  }

  ghost predicate CheckpointsTold(c: Context) {
    var told, taken := Announced(c.events), StepCheckpoints(c.checkpoints);
    && |told| == |taken|
    && forall j :: 0 <= j < |told| ==> told[j] == (taken[j].number, |taken[j].completed|)
  }

  ghost predicate Filed(cfg: Config, p: Plan, c: Context) {
    HistoryFiled(c) && CheckpointsFiled(cfg, p, c) && CheckpointsTold(c)
  }

  // ---- One entry, one checkpoint -------------------------------------------------------------------

  lemma {:induction false} EntryFiled(entries: seq<Entry>, e: Entry)
    requires StartsOnce(entries) && RequestsFollow(entries) && !e.Started?
    requires e.ReplanRequested? ==>
      var last := entries[|entries| - 1]; last.StepRecorded? && last.stepId == e.failedStep && !last.success
    ensures StartsOnce(entries + [e]) && RequestsFollow(entries + [e])
    ensures Recorded(entries + [e])
         == Recorded(entries) + if e.StepRecorded? then [(e.stepId, e.success, e.durationMs)] else []
  {
    assert (entries + [e])[..|entries|] == entries;
  }

  lemma {:induction false} LatestAppend(results: seq<StepResult>, r: StepResult)
    ensures Latest(results + [r]) == Latest(results)[r.stepId := r]
    ensures Reports(results + [r]) == Reports(results) + [(r.stepId, r.success, r.effort.durationMs)]
  {
    assert (results + [r])[..|results|] == results;
  }

  lemma {:induction false} CheckpointAppend(checkpoints: seq<Checkpoint>, k: Checkpoint)
    ensures StepCheckpoints(checkpoints + [k])
         == StepCheckpoints(checkpoints) + if k.status == Pending then [] else [k]
  {
    assert (checkpoints + [k])[..|checkpoints|] == checkpoints;
  }

  lemma {:induction false} EventAppend(events: seq<Event>, e: Event)
    ensures Announced(events + [e])
         == Announced(events) + if e.CheckpointCreated? then [(e.number, e.completedSteps)] else []
  {
    assert (events + [e])[..|events|] == events;
  }

  // ---- What keeps the records -----------------------------------------------------------------------

  // Nothing that is filed differs, and no checkpoint is announced.
  ghost predicate SameRecords(c: Context, d: Context) {
    && Announced(d.events) == Announced(c.events)
    && d.history.entries == c.history.entries && d.history.results == c.history.results
    && d.results == c.results && d.checkpoints == c.checkpoints
    && (d.machine.status == c.machine.status || !IsTerminal(c.machine.status))
  }

  lemma {:induction false} SameFiled(cfg: Config, p: Plan, c: Context, d: Context)
    requires Filed(cfg, p, c) && SameRecords(c, d)
    ensures Filed(cfg, p, d)
  {
  }

  lemma {:induction false} ClosedFiled(cfg: Config, p: Plan, c: Context, last: Status, e: Event)
    requires Filed(cfg, p, c) && IsTerminal(last) && (IsTerminal(c.machine.status) ==> c.machine.status == last)
    requires !e.CheckpointCreated?
    ensures Filed(cfg, p, Closed(c, last, e))
  {
    EventAppend(c.events, e);
    ClosedHistory(c, Closed(c, last, e), last);
    assert CheckpointsTold(Closed(c, last, e));
  }

  lemma {:induction false} ClosedHistory(c: Context, d: Context, last: Status)
    requires HistoryFiled(c) && IsTerminal(last) && (IsTerminal(c.machine.status) ==> c.machine.status == last)
    requires d.history == c.history.Add(Finished(last)) && d.results == c.results && d.machine.status == last
    ensures HistoryFiled(d)
  {
    EntryFiled(c.history.entries, Finished(last));
  }

  lemma {:induction false} QuietAct(c: Context, a: Action)
    requires a == Cancel ==> IsTerminal(c.machine.status)
    ensures SameRecords(c, Act(c, a))
  {
    var d := Act(c, a);
    if a == Pause {
      EventAppend(c.events, ExecutionPaused);
    } else if a == Resume {
      EventAppend(c.events, ExecutionResumed);
    }
    assert d.history == c.history && d.results == c.results && d.checkpoints == c.checkpoints;
  }

  lemma {:induction false} ActFiled(cfg: Config, p: Plan, c: Context, a: Action)
    requires Filed(cfg, p, c)
    ensures Filed(cfg, p, Act(c, a))
  {
    if a == Cancel && !IsTerminal(c.machine.status) {
      ClosedFiled(cfg, p, c, Cancelled, ExecutionCancelled(c.CompletedCount()));
    } else {
      QuietAct(c, a);
      SameFiled(cfg, p, c, Act(c, a));
    }
  }

  lemma {:induction false} ActAllFiled(cfg: Config, p: Plan, c: Context, actions: seq<Action>)
    requires Filed(cfg, p, c)
    ensures Filed(cfg, p, ActAll(c, actions))
    decreases |actions|
  {
    if actions != [] {
      ActFiled(cfg, p, c, actions[0]);
      ActAllFiled(cfg, p, Act(c, actions[0]), actions[1..]);
    }
  }

  lemma {:induction false} WaitFiled(cfg: Config, p: Plan, c: Context, ticks: seq<Tick>)
    requires Filed(cfg, p, c)
    ensures Filed(cfg, p, WaitForResume(c, ticks).c)
    decreases |ticks|
  {
    if c.machine.status == Paused && ticks != [] {
      ActAllFiled(cfg, p, c, ticks[0].actions);
      WaitFiled(cfg, p, ActAll(c, ticks[0].actions), ticks[1..]);
    }
  }

  lemma {:induction false} RecordFiled(cfg: Config, p: Plan, c: Context, r: StepResult)
    requires Filed(cfg, p, c) && c.machine.status in {Running, Paused, Cancelled}
    ensures var d := Record(cfg, c, r);
      && Filed(cfg, p, d)
      && d.history.entries[|d.history.entries| - 1] == StepRecorded(r.stepId, r.success, r.effort.durationMs)
  {
    var d := Record(cfg, c, r);
    RecordKeeps(cfg, c, r);
    EntryFiled(c.history.entries, StepRecorded(r.stepId, r.success, r.effort.durationMs));
    LatestAppend(c.results, r);
    assert HistoryFiled(d);
    RecordCheckpointsFiled(cfg, p, c, r);
  }

  lemma {:induction false} RecordCheckpointsFiled(cfg: Config, p: Plan, c: Context, r: StepResult)
    requires Filed(cfg, p, c) && c.machine.status in {Running, Paused, Cancelled}
    ensures CheckpointsFiled(cfg, p, Record(cfg, c, r)) && CheckpointsTold(Record(cfg, c, r))
  {
    var d := Record(cfg, c, r);
    RecordKeeps(cfg, c, r);
    if cfg.enableCheckpoints {
      var k := d.checkpoints[|c.checkpoints|];
      assert d.checkpoints == c.checkpoints + [k];
      LatestAppend(c.results, r);
      OneMoreCheckpoint(cfg, p, c, d, r, k);
      assert d.events == c.events + [CheckpointCreated(k.number, |k.completed|)];
      OneMoreTold(c, d, k);
    }
  }

  lemma {:induction false} OneMoreTold(c: Context, d: Context, k: Checkpoint)
    requires CheckpointsTold(c) && d.checkpoints == c.checkpoints + [k] && k.status != Pending
    requires d.events == c.events + [CheckpointCreated(k.number, |k.completed|)]
    ensures CheckpointsTold(d)
  {
    EventAppend(c.events, CheckpointCreated(k.number, |k.completed|));
    CheckpointAppend(c.checkpoints, k);
  }

  lemma {:induction false} OneMoreCheckpoint(cfg: Config, p: Plan, c: Context, d: Context, r: StepResult, k: Checkpoint)
    requires CheckpointsFiled(cfg, p, c) && cfg.enableCheckpoints
    requires d.results == c.results + [r] && d.checkpoints == c.checkpoints + [k]
    requires k.number == |c.checkpoints| && k.current == r.stepId && k.completed == Successes(d.results)
    requires k.statistics == Log([], Latest(d.results)).Tally() && k.status in {Running, Paused, Cancelled}
    ensures CheckpointsFiled(cfg, p, d)
  {
    CheckpointAppend(c.checkpoints, k);
    var before, after := StepCheckpoints(c.checkpoints), StepCheckpoints(d.checkpoints);
    forall j | 0 <= j < |after|
      ensures TakenThen(after[j], d.results, j)
    {
      if j < |before| {
        assert d.results[..j + 1] == c.results[..j + 1];
        assert TakenThen(before[j], c.results, j);
      } else {
        assert d.results[..j + 1] == d.results;
      }
    }
  }

  lemma {:induction false} RetryFiled(cfg: Config, p: Plan, c: Context, id: string, ticks: seq<Tick>)
    requires Filed(cfg, p, c) && c.machine.StateOf(id) == StepFailed
    ensures Filed(cfg, p, Retry(cfg, c, id, ticks).c)
  {
    var slept := Sleeping(cfg, c, id);
    if AttemptsOf(c.attempts, id) + 1 < cfg.retryPolicy.maxAttempts {
      RetryIs(cfg, c, id, ticks);
      EventAppend(c.events, slept.events[|c.events|]);
      SameFiled(cfg, p, c, slept);
      if ticks != [] {
        WokenFiled(cfg, p, slept, id, ticks[0].actions);
      }
    } else {
      SameFiled(cfg, p, c, Retry(cfg, c, id, ticks).c);
    }
  }

  lemma {:induction false} WokenFiled(cfg: Config, p: Plan, slept: Context, id: string, actions: seq<Action>)
    requires Filed(cfg, p, slept)
    ensures var woken := ActAll(slept, actions); Filed(cfg, p, woken.(machine := woken.machine.Step(id, StepRunning)))
  {
    var woken := ActAll(slept, actions);
    ActAllFiled(cfg, p, slept, actions);
    SameFiled(cfg, p, woken, woken.(machine := woken.machine.Step(id, StepRunning)));
  }

  lemma {:induction false} ReplanFiled(cfg: Config, p: Plan, c: Context, id: string, ticks: seq<Tick>)
    requires Filed(cfg, p, c) && c.machine.status in {Running, Paused, Cancelled}
    requires var last := c.history.entries[|c.history.entries| - 1];
      last.StepRecorded? && last.stepId == id && !last.success
    ensures Filed(cfg, p, RequestReplan(c, id, ticks).c)
  {
    var asked := c.(history := c.history.Add(ReplanRequested(id)));
    RequestFiled(cfg, p, c, id);
    if c.machine.status == Running {
      var replanning := asked.(machine := asked.machine.Move(Replanning));
      SameFiled(cfg, p, asked, replanning);
      if ticks != [] {
        ReplanIs(c, id, ticks);
        ActAllFiled(cfg, p, replanning, ticks[0].actions);
        ActAllKeepsStatus(replanning, ticks[0].actions);
        ReplannedFiled(cfg, p, ActAll(replanning, ticks[0].actions), ticks[0].replan, ticks[1..]);
      }
    }
  }

  lemma {:induction false} ActAllKeepsStatus(c: Context, actions: seq<Action>)
    requires c.machine.status == Replanning
    ensures ActAll(c, actions).machine.status in {Replanning, Cancelled}
  {
    ActionsIs(c, actions);
  }

  lemma {:induction false} RequestFiled(cfg: Config, p: Plan, c: Context, id: string)
    requires Filed(cfg, p, c)
    requires var last := c.history.entries[|c.history.entries| - 1];
      last.StepRecorded? && last.stepId == id && !last.success
    ensures Filed(cfg, p, c.(history := c.history.Add(ReplanRequested(id))))
  {
    EntryFiled(c.history.entries, ReplanRequested(id));
  }

  lemma {:induction false} ReplannedFiled(cfg: Config, p: Plan, c: Context, replan: Replan, rest: seq<Tick>)
    requires Filed(cfg, p, c) && c.machine.status in {Replanning, Cancelled}
    ensures Filed(cfg, p, Replanned(c, replan, rest).c)
  {
    if replan.NewPlan? {
      SetPlanFiled(cfg, p, c, replan.plan);
      ReplannedSame(c, replan, rest);
      SameFiled(cfg, p, SetPlan(c, replan.plan), Replanned(c, replan, rest).c);
    }
  }

  lemma {:induction false} ReplannedSame(c: Context, replan: Replan, rest: seq<Tick>)
    requires replan.NewPlan? && c.machine.status in {Replanning, Cancelled}
    ensures SameRecords(SetPlan(c, replan.plan), Replanned(c, replan, rest).c)
  {
  }

  lemma {:induction false} SetPlanFiled(cfg: Config, p: Plan, c: Context, q: Plan)
    requires Filed(cfg, p, c)
    ensures Filed(cfg, p, SetPlan(c, q))
  {
    var d := SetPlan(c, q);
    if q.steps != [] {
      var k := InitialCheckpoint(|c.checkpoints|, Ids(q.steps));
      assert d.checkpoints == c.checkpoints + [k];
      CheckpointAppend(c.checkpoints, k);
    } else {
      assert d.checkpoints == c.checkpoints;
    }
    assert HistoryFiled(d);
  }

  lemma {:induction false} FailFiled(cfg: Config, p: Plan, c: Context, r: StepResult, ticks: seq<Tick>)
    requires Filed(cfg, p, c) && c.machine.status in {Running, Paused, Cancelled}
    requires var last := c.history.entries[|c.history.entries| - 1];
      last.StepRecorded? && last.stepId == r.stepId && !last.success
    requires c.machine.StateOf(r.stepId) == StepRunning
    ensures Filed(cfg, p, Fail(cfg, c, r, ticks).c)
  {
    var d := c.(machine := c.machine.Step(r.stepId, StepFailed)).Emit(StepFailedEvent(r.stepId, r.errorCode));
    EventAppend(c.events, StepFailedEvent(r.stepId, r.errorCode));
    SameFiled(cfg, p, c, d);
    FailIs(cfg, c, r, ticks);
    RetryFiled(cfg, p, d, r.stepId, ticks);
    ReplanFiled(cfg, p, d, r.stepId, ticks);
  }

  lemma {:induction false} SucceedFiled(cfg: Config, p: Plan, c: Context, id: string, ticks: seq<Tick>)
    requires Filed(cfg, p, c) && c.machine.StateOf(id) == StepRunning
    ensures Filed(cfg, p, Succeed(c, id, ticks).c)
  {
    var e := StepCompletedEvent(id);
    EventAppend(c.events, e);
    EventAppend(c.events + [e], Progress(id, c.CompletedCount(), |c.Steps()|));
    SameFiled(cfg, p, c, Succeed(c, id, ticks).c);
  }

  lemma {:induction false} AnswerFiled(cfg: Config, p: Plan, c: Context, r: StepResult, ticks: seq<Tick>)
    requires Filed(cfg, p, c) && c.machine.status in {Running, Paused, Cancelled}
    requires c.machine.StateOf(r.stepId) == StepRunning
    ensures var d := Record(cfg, c, r);
      Filed(cfg, p, AfterAnswer(cfg, d, r, ticks).c)
  {
    var d := Record(cfg, c, r);
    RecordFiled(cfg, p, c, r);
    RecordKeeps(cfg, c, r);
    if r.success {
      SucceedFiled(cfg, p, d, r.stepId, ticks);
    } else {
      FailFiled(cfg, p, d, r, ticks);
    }
  }

  lemma {:induction false} BeginFiled(cfg: Config, p: Plan, c: Context, id: string)
    requires Filed(cfg, p, c)
    ensures Filed(cfg, p, Begin(c, id).c)
  {
    EventAppend(c.events, StepStartedEvent(id, c.index));
    SameFiled(cfg, p, c, Begin(c, id).c);
  }

  lemma {:induction false} ArrivedFiled(cfg: Config, p: Plan, c: Context, id: string, actions: seq<Action>)
    requires Filed(cfg, p, c) && AtHead(c) && Begin(c, id).flow == Continue
    ensures var d := ActAll(Begin(c, id).c, actions);
      && Filed(cfg, p, d) && d.machine.status in {Running, Paused, Cancelled} && d.machine.StateOf(id) == StepRunning
  {
    var begun := Begin(c, id).c;
    BeginFiled(cfg, p, c, id);
    BeginStatus(c, id);
    ActAllStatus(begun, actions);
    ActAllFiled(cfg, p, begun, actions);
    ActAllKeepsBooks(begun, actions);
    assert begun.machine.StateOf(id) == StepRunning;
  }

  lemma {:induction false} RunStepFiled(cfg: Config, p: Plan, c: Context, id: string, ticks: seq<Tick>)
    requires Filed(cfg, p, c) && AtHead(c)
    ensures Filed(cfg, p, RunStep(cfg, c, id, ticks).c)
  {
    BeginFiled(cfg, p, c, id);
    if Begin(c, id).flow == Continue && ticks != [] {
      RunStepIs(cfg, c, id, ticks);
      ArrivedFiled(cfg, p, c, id, ticks[0].actions);
      AnswerFiled(cfg, p, ActAll(Begin(c, id).c, ticks[0].actions), ResultOf(id, ticks[0].answer), ticks[1..]);
    }
  }

  lemma {:induction false} IterateFiled(cfg: Config, p: Plan, c: Context, ticks: seq<Tick>)
    requires Filed(cfg, p, c) && AtHead(c)
    ensures Filed(cfg, p, Iterate(cfg, c, ticks).c)
  {
    if !c.aborted {
      WaitFiled(cfg, p, c, ticks);
      WaitStatus(c, ticks);
      var w := WaitForResume(c, ticks);
      if w.flow == Continue && w.c.CurrentStep().Some? {
        RunStepFiled(cfg, p, w.c, w.c.CurrentStep().value.id, w.ticks);
      }
    }
  }

  lemma {:induction false} LoopFiled(cfg: Config, p: Plan, c: Context, ticks: seq<Tick>)
    requires Filed(cfg, p, c) && AtHead(c)
    ensures Filed(cfg, p, LoopEnd(cfg, c, ticks).c)
    decreases |ticks|
  {
    IterateFiled(cfg, p, c, ticks);
    Anything(c, ticks);
    IterateStatus(cfg, c, ticks, ANYTHING);
    var s := Iterate(cfg, c, ticks);
    if s.flow == Continue {
      LoopFiled(cfg, p, s.c, s.ticks);
    }
  }

  lemma {:induction false} SettleFiled(cfg: Config, p: Plan, s: Stage)
    requires s.flow != Continue && Filed(cfg, p, s.c) && StageStatus(s, ANYTHING)
    ensures Filed(cfg, p, Settle(s).0)
  {
    var c := s.c;
    SettledAs(s);
    if s.flow == Break && c.machine.status == Running {
      var e := ExecutionCompleted(|Successes(c.results)|, |c.Steps()|, SumAttempts(c.attempts));
      ClosedFiled(cfg, p, c, Completed, e);
    } else if EndsInFault(s) {
      ClosedFiled(cfg, p, c, Failed,
          ExecutionFailed(if c.CurrentStep().Some? then Some(c.CurrentStep().value.id) else None));
    } else if EndsStopped(s) {
      ClosedFiled(cfg, p, c, Cancelled, ExecutionCancelled(|Successes(c.results)|));
    }
  }

  // In every run: the history starts once, holds the results in order, closes only with the status the run has, and
  // has each replanning request right behind its failure; the checkpoints are numbered, begin with the plan's, and
  // when they are enabled there is one for every result, with what was known then, and each is announced.
  lemma {:induction false} RecordsTheorem(cfg: Config, plan: Plan, aborted: bool, ticks: seq<Tick>)
    ensures Filed(cfg, plan, Execute(cfg, Fresh(plan, aborted), ticks).0)
  {
    var c := Start(Fresh(plan, aborted));
    StartFiled(cfg, plan, aborted);
    LoopFiled(cfg, plan, c, ticks);
    Anything(c, ticks);
    LoopStatus(cfg, c, ticks, ANYTHING);
    SettleFiled(cfg, plan, LoopEnd(cfg, c, ticks));
  }

  lemma {:induction false} StartFiled(cfg: Config, plan: Plan, aborted: bool)
    ensures Filed(cfg, plan, Start(Fresh(plan, aborted))) && AtHead(Start(Fresh(plan, aborted)))
  {
    var c := Start(Fresh(plan, aborted));
    assert !CancelAnnounced(c);
    assert c.history.entries == [Started] && [Started][..0] == [];
    assert HistoryFiled(c);
    FirstCheckpoint(cfg, plan, c);
    EventAppend([], ExecutionStarted(|plan.steps|));
    assert c.events == [] + [ExecutionStarted(|plan.steps|)];
  }

  lemma {:induction false} FirstCheckpoint(cfg: Config, p: Plan, c: Context)
    requires c.checkpoints == (if p.steps == [] then [] else [InitialCheckpoint(0, Ids(p.steps))]) && c.results == []
    ensures CheckpointsFiled(cfg, p, c) && StepCheckpoints(c.checkpoints) == []
  {
    if p.steps != [] {
      CheckpointAppend([], InitialCheckpoint(0, Ids(p.steps)));
      assert [] + [InitialCheckpoint(0, Ids(p.steps))] == c.checkpoints;
    }
  }
}
