// What a run leaves behind: which steps succeeded in which order, and what every checkpoint says.
module ExecutionTrail {
  import opened Basics
  import opened Plans
  import opened ExecutionState
  import opened ExecutionHistory
  import opened ExecutionCheckpoint
  import opened ExecutionRetry
  import opened ExecutionRun
  import opened ExecutionAccounting
  import opened ExecutionGrowth
  import opened ExecutionOutcomes

  // The counts agree, nothing is listed twice, and what remains is neither completed nor current.
  ghost predicate Sound(k: Checkpoint) {
    && k.statistics.stepsCompleted == |k.completed|
    && Distinct(k.completed)
    && forall x :: x in k.remaining ==> x !in k.completed && x != k.current
  }

  // The ids a checkpoint puts behind it.
  function Listed(k: Checkpoint): seq<string> {
    k.completed + if k.current in k.completed then [] else [k.current]
  }

  // Completed, current and remaining steps make up the plan, in its order.
  ghost predicate Partitions(k: Checkpoint, ids: seq<string>) {
    Listed(k) + k.remaining == ids
  }

  // The checkpoint taken when a plan is set.
  ghost predicate InitialOf(k: Checkpoint, q: Plan) {
    q.steps != [] && k == InitialCheckpoint(k.number, Ids(q.steps))
  }

  ghost predicate InitialFrom(k: Checkpoint, plans: set<Plan>) {
    exists q :: q in plans && InitialOf(k, q)
  }

  // The checkpoint taken when the j-th result is recorded.
  ghost predicate TakenAt(k: Checkpoint, results: seq<StepResult>, j: nat) {
    && j < |results|
    && k.current == results[j].stepId
    && k.completed == Successes(results[..j + 1])
    && (k.current in k.completed <==> results[j].success)
    && Sound(k)
  }

  ghost predicate Taken(k: Checkpoint, results: seq<StepResult>) {
    exists j: nat :: TakenAt(k, results, j)
  }

  // What is behind the checkpoint are the plan's first ids, and what remains is the plan without them.
  ghost predicate Follows(k: Checkpoint, ids: seq<string>) {
    Listed(k) <= ids && k.remaining == Remaining(ids, k.completed, k.current)
  }

  ghost predicate Unreplanned(c: Context) {
    ReplanCount(c.history.entries) == 0
  }

  // As long as nobody asked for a new plan, the successes are the plan's first steps, in order.
  ghost predicate InOrder(p: Plan, c: Context) {
    Unreplanned(c) ==>
      && c.plan == Some(p)
      && c.index <= |p.steps|
      && Successes(c.results) == Ids(p.steps)[..c.index]
  }

  ghost predicate Checked(plans: set<Plan>, p: Plan, c: Context) {
    && (forall k :: k in c.checkpoints ==> InitialFrom(k, plans) || Taken(k, c.results))
    && (Unreplanned(c) ==> forall k :: k in c.checkpoints ==>
          InitialOf(k, p) || (Taken(k, c.results) && Follows(k, Ids(p.steps))))
  }

  ghost predicate Offers(plans: set<Plan>, ticks: seq<Tick>) {
    forall t :: t in ticks && t.replan.NewPlan? ==> t.replan.plan in plans
  }

  // ---- One checkpoint ---------------------------------------------------------------

  // The history's map and the list of results count the same successes.
  lemma {:induction false} StatisticsCountSuccesses(c: Context)
    requires Distinct(Successes(c.results))
    requires forall x :: LoggedSuccess(c, x) <==> x in Successes(c.results)
    ensures c.history.Tally().stepsCompleted == |Successes(c.results)|
  {
    DistinctCardinality(Successes(c.results));
    assert forall x :: LoggedSuccess(c, x) <==> x in c.history.results && c.history.results[x].success;
    assert Having(c.history.results, true) == ToSet(Successes(c.results));
  }

  lemma {:induction false} ReportedLogs(cfg: Config, c: Context, id: string, success: bool)
    requires Reported(cfg, c, id, success, StepRunning)
    ensures forall x :: LoggedSuccess(c, x) <==> x in Successes(c.results)
  {
    forall x
      ensures LoggedSuccess(c, x) <==> x in Successes(c.results)
    {
      if x != id {
        assert Tallied(cfg, c, x);
      }
    }
  }

  // The validator rejects exactly the checkpoints taken after a success.
  lemma {:induction false} StepCheckpointAccepted(cfg: Config, c: Context, r: StepResult)
    requires Underway(cfg, c, r.stepId)
    ensures var k := StepCheckpoint(Record(cfg, c, r), r.stepId);
      && k.status == c.machine.status
      && (r.success <==> k.current in k.completed)
      && (Accepted(k) <==> !r.success && r.stepId != "")
  {
    var d := Record(cfg, c, r);
    RecordStage(cfg, c, r);
    ReportedLogs(cfg, d, r.stepId, r.success);
    StatisticsCountSuccesses(d);
  }

  lemma {:induction false} CheckpointSound(cfg: Config, c: Context, id: string, success: bool)
    requires Reported(cfg, c, id, success, StepRunning)
    ensures Sound(StepCheckpoint(c, id))
  {
    ReportedLogs(cfg, c, id, success);
    StatisticsCountSuccesses(c);
    RemainingMembers(Ids(c.Steps()), Successes(c.results), id);
  }

  lemma {:induction false} CheckpointFollows(c: Context, id: string, success: bool)
    requires c.index < |c.Steps()| && c.Steps()[c.index].id == id
    requires Successes(c.results) == Ids(c.Steps())[..c.index] + if success then [id] else []
    requires id in Successes(c.results) <==> success
    ensures Follows(StepCheckpoint(c, id), Ids(c.Steps()))
  {
    assert Ids(c.Steps())[..c.index] + [id] == Ids(c.Steps())[..c.index + 1];
  }

  // Nothing behind position m comes again after it.
  ghost predicate NoneAgain(ids: seq<string>, m: nat)
    requires m <= |ids|
  {
    forall i :: m <= i < |ids| ==> ids[i] !in ids[..m]
  }

  // Such a checkpoint splits the plan exactly when no id behind it comes again.
  lemma {:induction false} PartitionsIff(k: Checkpoint, ids: seq<string>)
    requires Follows(k, ids)
    ensures Partitions(k, ids) <==> NoneAgain(ids, |Listed(k)|)
  {
    if NoneAgain(ids, |Listed(k)|) {
      NoneAgainSplits(k, ids);
    }
    if Partitions(k, ids) {
      SplitNoneAgain(k, ids);
    }
  }

  lemma {:induction false} NoneAgainSplits(k: Checkpoint, ids: seq<string>)
    requires Follows(k, ids) && NoneAgain(ids, |Listed(k)|)
    ensures Partitions(k, ids)
  {
    var m := |Listed(k)|;
    assert forall x :: x in Listed(k) <==> x in k.completed || x == k.current;
    assert forall i :: 0 <= i < m ==> ids[i] == Listed(k)[i];
    RemainingSuffix(ids, k.completed, k.current, m);
  }

  lemma {:induction false} SplitNoneAgain(k: Checkpoint, ids: seq<string>)
    requires Follows(k, ids) && Partitions(k, ids)
    ensures NoneAgain(ids, |Listed(k)|)
  {
    var m := |Listed(k)|;
    RemainingMembers(ids, k.completed, k.current);
    assert ids[..m] == Listed(k);
    forall i | m <= i < |ids|
      ensures ids[i] !in ids[..m]
    {
      assert ids[i] == (Listed(k) + k.remaining)[i] == k.remaining[i - m];
    }
  }

  lemma {:induction false} InitialPartitions(k: Checkpoint, q: Plan)
    requires InitialOf(k, q)
    ensures Partitions(k, Ids(q.steps)) && k.current == Ids(q.steps)[0]
    ensures Sound(k) <==> k.current !in Ids(q.steps)[1..]
  {
    var ids := Ids(q.steps);
    assert ids == [ids[0]] + ids[1..];
  }

  // ---- One step -----------------------------------------------------------------------

  lemma {:induction false} RecordEffects(cfg: Config, c: Context, r: StepResult)
    ensures var d := Record(cfg, c, r);
      && d.plan == c.plan && d.index == c.index && d.machine == c.machine && d.attempts == c.attempts
      && (Unreplanned(d) <==> Unreplanned(c))
      && Successes(d.results) == Successes(c.results) + (if r.success then [r.stepId] else [])
      && (d.checkpoints == c.checkpoints
          || d.checkpoints == c.checkpoints + [StepCheckpoint(d, r.stepId).(number := |c.checkpoints|)])
  {
    RecordKeeps(cfg, c, r);
    ResultAppend(c.results, r);
    EntryAppend(c.history.entries, StepRecorded(r.stepId, r.success, r.effort.durationMs));
  }

  lemma {:induction false} RecordChecked(cfg: Config, plans: set<Plan>, p: Plan, c: Context, r: StepResult)
    requires Underway(cfg, c, r.stepId) && InOrder(p, c) && Checked(plans, p, c)
    requires c.CurrentStep().Some? && c.CurrentStep().value.id == r.stepId
    ensures Checked(plans, p, Record(cfg, c, r))
  {
    var d := Record(cfg, c, r);
    RecordKeeps(cfg, c, r);
    RecordEffects(cfg, c, r);
    RecordStage(cfg, c, r);
    CheckpointSound(cfg, d, r.stepId, r.success);
    if Unreplanned(d) {
      CheckpointFollows(d, r.stepId, r.success);
    }
    CheckedAppend(plans, p, c, d, r, StepCheckpoint(d, r.stepId).(number := |c.checkpoints|));
  }

  lemma {:induction false} StillTaken(k: Checkpoint, results: seq<StepResult>, r: StepResult)
    requires Taken(k, results)
    ensures Taken(k, results + [r])
  {
    var j: nat :| TakenAt(k, results, j);
    assert (results + [r])[..j + 1] == results[..j + 1];
    assert TakenAt(k, results + [r], j);
  }

  lemma {:induction false} CheckedAppend(
    plans: set<Plan>, p: Plan, c: Context, d: Context, r: StepResult, k: Checkpoint)
    requires Checked(plans, p, c) && Sound(k)
    requires Unreplanned(d) <==> Unreplanned(c)
    requires d.results == c.results + [r]
    requires k.current == r.stepId && k.completed == Successes(d.results) && (r.success <==> k.current in k.completed)
    requires Unreplanned(d) ==> Follows(k, Ids(p.steps))
    requires d.checkpoints == c.checkpoints || d.checkpoints == c.checkpoints + [k]
    ensures Checked(plans, p, d)
  {
    assert d.results[..|c.results| + 1] == d.results;
    assert TakenAt(k, d.results, |c.results|);
    forall earlier | earlier in c.checkpoints && Taken(earlier, c.results)
      ensures Taken(earlier, d.results)
    {
      StillTaken(earlier, c.results, r);
    }
  }

  // Nothing this file talks about differs.
  ghost predicate SameTrail(c: Context, d: Context) {
    && d.plan == c.plan && d.index == c.index && d.results == c.results && d.checkpoints == c.checkpoints
    && (Unreplanned(d) <==> Unreplanned(c))
  }

  lemma {:induction false} SameTrailTransfer(p: Plan, c: Context, d: Context)
    requires SameTrail(c, d)
    ensures InOrder(p, c) ==> InOrder(p, d)
    ensures forall plans :: Checked(plans, p, c) ==> Checked(plans, p, d)
  {
  }

  lemma {:induction false} ActAllSameTrail(c: Context, actions: seq<Action>)
    ensures SameTrail(c, ActAll(c, actions))
  {
    ActAllKeepsBooks(c, actions);
  }

  // The step is completed and the index moves on, so the successes are again the first steps up to the index.
  lemma {:induction false} SucceedInOrder(p: Plan, c: Context, id: string, ticks: seq<Tick>)
    requires c.machine.StateOf(id) == StepRunning
    requires Unreplanned(c) ==>
      && c.plan == Some(p) && c.index < |p.steps| && p.steps[c.index].id == id
      && Successes(c.results) == Ids(p.steps)[..c.index] + [id]
    ensures InOrder(p, Succeed(c, id, ticks).c)
  {
    var d := Succeed(c, id, ticks).c;
    assert Unreplanned(d) <==> Unreplanned(c);
    if Unreplanned(d) {
      assert Ids(p.steps)[..c.index] + [id] == Ids(p.steps)[..c.index + 1];
    }
  }

  lemma {:induction false} SucceedChecked(plans: set<Plan>, p: Plan, c: Context, id: string, ticks: seq<Tick>)
    requires Checked(plans, p, c)
    ensures Checked(plans, p, Succeed(c, id, ticks).c)
  {
    var d := Succeed(c, id, ticks).c;
    assert d.checkpoints == c.checkpoints && d.history == c.history;
  }

  lemma {:induction false} RetrySameTrail(cfg: Config, c: Context, id: string, ticks: seq<Tick>)
    ensures SameTrail(c, Retry(cfg, c, id, ticks).c)
  {
    var attempt := AttemptsOf(c.attempts, id) + 1;
    var slept := c.(attempts := c.attempts[id := attempt], machine := c.machine.Step(id, StepRetrying))
                 .Emit(RetryStarted(id, attempt, RetryDelay(attempt, cfg.retryPolicy)));
    if ticks != [] {
      ActAllSameTrail(slept, ticks[0].actions);
    }
  }

  lemma {:induction false} ReplanMarks(c: Context, id: string, ticks: seq<Tick>)
    ensures !Unreplanned(RequestReplan(c, id, ticks).c)
  {
    EntryAppend(c.history.entries, ReplanRequested(id));
    var d := c.(history := c.history.Add(ReplanRequested(id)));
    if ticks != [] {
      ActAllSameTrail(d.(machine := d.machine.Move(Replanning)), ticks[0].actions);
    }
  }

  lemma {:induction false} ReplanChecked(plans: set<Plan>, p: Plan, c: Context, id: string, ticks: seq<Tick>)
    requires Checked(plans, p, c) && Offers(plans, ticks)
    ensures Checked(plans, p, RequestReplan(c, id, ticks).c)
  {
    ReplanMarks(c, id, ticks);
    var d := c.(history := c.history.Add(ReplanRequested(id)));
    if d.machine.CanMove(Replanning) && ticks != [] {
      var e := d.(machine := d.machine.Move(Replanning));
      ActAllSameTrail(e, ticks[0].actions);
      var f := ActAll(e, ticks[0].actions);
      if ticks[0].replan.NewPlan? && ticks[0].replan.plan.steps != [] {
        assert ticks[0] in ticks;
        var q := ticks[0].replan.plan;
        assert InitialOf(InitialCheckpoint(|f.checkpoints|, Ids(q.steps)), q);
      }
    }
  }

  lemma {:induction false} TriedAgainInOrder(cfg: Config, p: Plan, c: Context, id: string, ticks: seq<Tick>)
    requires InOrder(p, c)
    ensures InOrder(p, Retry(cfg, c, id, ticks).c)
    ensures InOrder(p, RequestReplan(c, id, ticks).c)
  {
    RetrySameTrail(cfg, c, id, ticks);
    SameTrailTransfer(p, c, Retry(cfg, c, id, ticks).c);
    ReplanMarks(c, id, ticks);
  }

  // A failed step that is to run again, or be replanned, changes neither the order nor the checkpoints so far.
  lemma {:induction false} FailInOrder(cfg: Config, p: Plan, c: Context, r: StepResult, ticks: seq<Tick>)
    requires InOrder(p, c)
    ensures InOrder(p, Fail(cfg, c, r, ticks).c)
  {
    var d := c.(machine := c.machine.Step(r.stepId, StepFailed)).Emit(StepFailedEvent(r.stepId, r.errorCode));
    assert SameTrail(c, d);
    SameTrailTransfer(p, c, d);
    TriedAgainInOrder(cfg, p, d, r.stepId, ticks);
  }

  lemma {:induction false} FailChecked(
    cfg: Config, plans: set<Plan>, p: Plan, c: Context, r: StepResult, ticks: seq<Tick>)
    requires Checked(plans, p, c) && Offers(plans, ticks)
    ensures Checked(plans, p, Fail(cfg, c, r, ticks).c)
  {
    var d := c.(machine := c.machine.Step(r.stepId, StepFailed)).Emit(StepFailedEvent(r.stepId, r.errorCode));
    assert SameTrail(c, d);
    SameTrailTransfer(p, c, d);
    RetrySameTrail(cfg, d, r.stepId, ticks);
    SameTrailTransfer(p, d, Retry(cfg, d, r.stepId, ticks).c);
    ReplanChecked(plans, p, d, r.stepId, ticks);
  }

  // The context in which the executor's answer arrives.
  lemma {:induction false} AnswerArrives(cfg: Config, c: Context, id: string, actions: seq<Action>)
    requires Books(cfg, c) && Begin(c, id).flow == Continue
    ensures Underway(cfg, ActAll(Begin(c, id).c, actions), id)
    ensures SameTrail(c, ActAll(Begin(c, id).c, actions))
  {
    BeginStage(cfg, c, id);
    ActAllKeepsBooks(Begin(c, id).c, actions);
    UnderwaySurvives(cfg, Begin(c, id).c, ActAll(Begin(c, id).c, actions), id);
    ActAllSameTrail(Begin(c, id).c, actions);
  }

  lemma {:induction false} AnswerInOrder(cfg: Config, p: Plan, c: Context, r: StepResult, ticks: seq<Tick>)
    requires Underway(cfg, c, r.stepId) && InOrder(p, c)
    requires c.CurrentStep().Some? && c.CurrentStep().value.id == r.stepId
    ensures var d := Record(cfg, c, r);
      InOrder(p, if r.success then Succeed(d, r.stepId, ticks).c else Fail(cfg, d, r, ticks).c)
  {
    RecordEffects(cfg, c, r);
    if r.success {
      SucceedInOrder(p, Record(cfg, c, r), r.stepId, ticks);
    } else {
      FailInOrder(cfg, p, Record(cfg, c, r), r, ticks);
    }
  }

  lemma {:induction false} RunStepInOrder(cfg: Config, p: Plan, c: Context, ticks: seq<Tick>)
    requires Books(cfg, c) && InOrder(p, c) && c.CurrentStep().Some?
    ensures InOrder(p, RunStep(cfg, c, c.CurrentStep().value.id, ticks).c)
  {
    var id := c.CurrentStep().value.id;
    if Begin(c, id).flow == Continue && ticks != [] {
      AnswerArrives(cfg, c, id, ticks[0].actions);
      AnswerInOrder(cfg, p, ActAll(Begin(c, id).c, ticks[0].actions), ResultOf(id, ticks[0].answer), ticks[1..]);
    }
  }

  lemma {:induction false} RunStepChecked(cfg: Config, plans: set<Plan>, p: Plan, c: Context, ticks: seq<Tick>)
    requires Books(cfg, c) && InOrder(p, c) && Checked(plans, p, c) && Offers(plans, ticks) && c.CurrentStep().Some?
    ensures Checked(plans, p, RunStep(cfg, c, c.CurrentStep().value.id, ticks).c)
  {
    var id := c.CurrentStep().value.id;
    if Begin(c, id).flow == Continue && ticks != [] {
      AnswerArrives(cfg, c, id, ticks[0].actions);
      var d, r := ActAll(Begin(c, id).c, ticks[0].actions), ResultOf(id, ticks[0].answer);
      SameTrailTransfer(p, c, d);
      RecordChecked(cfg, plans, p, d, r);
      SucceedChecked(plans, p, Record(cfg, d, r), id, ticks[1..]);
      if !r.success {
        FailChecked(cfg, plans, p, Record(cfg, d, r), r, ticks[1..]);
      }
    }
  }

  lemma {:induction false} WaitSameTrail(c: Context, ticks: seq<Tick>)
    ensures SameTrail(c, WaitForResume(c, ticks).c)
  {
    WaitKeepsBooks(c, ticks);
  }

  lemma {:induction false} IterateInOrder(cfg: Config, p: Plan, c: Context, ticks: seq<Tick>)
    requires Books(cfg, c) && InOrder(p, c)
    ensures InOrder(p, Iterate(cfg, c, ticks).c)
  {
    if !c.aborted {
      WaitKeepsBooks(c, ticks);
      WaitSameTrail(c, ticks);
      var w := WaitForResume(c, ticks);
      SameBooksTransfer(cfg, c, w.c);
      if w.flow == Continue && w.c.CurrentStep().Some? {
        RunStepInOrder(cfg, p, w.c, w.ticks);
      }
    }
  }

  lemma {:induction false} IterateChecked(cfg: Config, plans: set<Plan>, p: Plan, c: Context, ticks: seq<Tick>)
    requires Books(cfg, c) && InOrder(p, c) && Checked(plans, p, c) && Offers(plans, ticks)
    ensures Checked(plans, p, Iterate(cfg, c, ticks).c) && Offers(plans, Iterate(cfg, c, ticks).ticks)
  {
    IterateTicks(cfg, c, ticks);
    if !c.aborted {
      WaitKeepsBooks(c, ticks);
      WaitSameTrail(c, ticks);
      WaitTicks(c, ticks);
      var w := WaitForResume(c, ticks);
      SameBooksTransfer(cfg, c, w.c);
      if w.flow == Continue && w.c.CurrentStep().Some? {
        RunStepChecked(cfg, plans, p, w.c, w.ticks);
      }
    }
  }

  lemma {:induction false} LoopInOrder(cfg: Config, p: Plan, c: Context, ticks: seq<Tick>)
    requires Books(cfg, c) && InOrder(p, c)
    ensures InOrder(p, LoopEnd(cfg, c, ticks).c)
    decreases |ticks|
  {
    IterateInOrder(cfg, p, c, ticks);
    IterateStage(cfg, c, ticks);
    var s := Iterate(cfg, c, ticks);
    if s.flow == Continue {
      LoopInOrder(cfg, p, s.c, s.ticks);
    }
  }

  lemma {:induction false} LoopChecked(cfg: Config, plans: set<Plan>, p: Plan, c: Context, ticks: seq<Tick>)
    requires Books(cfg, c) && InOrder(p, c) && Checked(plans, p, c) && Offers(plans, ticks)
    ensures Checked(plans, p, LoopEnd(cfg, c, ticks).c)
    decreases |ticks|
  {
    IterateInOrder(cfg, p, c, ticks);
    IterateChecked(cfg, plans, p, c, ticks);
    IterateStage(cfg, c, ticks);
    var s := Iterate(cfg, c, ticks);
    if s.flow == Continue {
      LoopChecked(cfg, plans, p, s.c, s.ticks);
    }
  }

  // ---- Whole runs ------------------------------------------------------------------------

  lemma {:induction false} StartBooks(cfg: Config, plan: Plan, aborted: bool)
    ensures Books(cfg, Start(Fresh(plan, aborted)))
    ensures InOrder(plan, Start(Fresh(plan, aborted)))
    ensures Checked({plan}, plan, Start(Fresh(plan, aborted)))
  {
    var c := Start(Fresh(plan, aborted));
    forall x
      ensures Tallied(cfg, c, x)
    {
      EventAppend([], ExecutionStarted(|plan.steps|), x);
    }
    EntryAppend([], Started);
    StartChecked(plan, aborted);
  }

  lemma {:induction false} StartChecked(plan: Plan, aborted: bool)
    ensures Checked({plan}, plan, Start(Fresh(plan, aborted)))
  {
    if plan.steps != [] {
      assert InitialOf(InitialCheckpoint(0, Ids(plan.steps)), plan);
    }
  }

  lemma {:induction false} ClosingKeepsBooks(c: Context, last: Status, e: Event)
    requires !e.StepStartedEvent? && !e.RetryStarted?
    ensures SameBooks(c, c.(machine := c.machine.Move(last), history := c.history.Add(Finished(last))).Emit(e))
  {
    EntryAppend(c.history.entries, Finished(last));
    var d := c.(machine := c.machine.Move(last), history := c.history.Add(Finished(last))).Emit(e);
    forall x
      ensures AgreesOn(c, d, x)
    {
      EventAppend(c.events, e, x);
    }
  }

  lemma {:induction false} CatchKeepsBooks(c: Context, f: Fault)
    ensures SameBooks(c, Catch(c, f).0)
  {
    ClosingKeepsBooks(c, Cancelled, ExecutionCancelled(c.CompletedCount()));
    ClosingKeepsBooks(c, Failed,
        ExecutionFailed(if c.CurrentStep().Some? then Some(c.CurrentStep().value.id) else None));
  }

  lemma {:induction false} FinishKeepsBooks(c: Context)
    ensures SameBooks(c, Finish(c).0)
  {
    CatchKeepsBooks(c, IllegalTransition);
    ClosingKeepsBooks(c, Completed, ExecutionCompleted(c.CompletedCount(), |c.Steps()|, SumAttempts(c.attempts)));
  }

  lemma {:induction false} SettleKeepsBooks(s: Stage)
    requires s.flow != Continue
    ensures SameBooks(s.c, Settle(s).0)
  {
    FinishKeepsBooks(s.c);
    if s.flow.Throw? {
      CatchKeepsBooks(s.c, s.flow.fault);
    }
  }

  lemma {:induction false} OnlyBreakCompletes(s: Stage)
    requires s.flow != Continue && s.c.machine.status != Completed
    ensures Settle(s).0.machine.status == Completed ==> s.flow == Break
  {
  }

  // The loop head reached after n iterations, and the ticks still to come, if the loop gets that far.
  ghost function HeadAfter(cfg: Config, c: Context, ticks: seq<Tick>, n: nat): Option<Stage>
    decreases n, 0
  {
    if n == 0 then Some(Stage(c, Continue, ticks)) else HeadFrom(cfg, Iterate(cfg, c, ticks), n - 1)
  }

  ghost function HeadFrom(cfg: Config, s: Stage, n: nat): Option<Stage>
    decreases n, 1
  {
    if s.flow == Continue then HeadAfter(cfg, s.c, s.ticks, n) else None
  }

  // What one iteration keeps holds at every loop head.
  lemma {:induction false} KeptAtEveryHead(cfg: Config, kept: Context -> bool, c: Context, ticks: seq<Tick>, n: nat)
    requires kept(c)
    requires forall d, more :: kept(d) && Iterate(cfg, d, more).flow == Continue ==> kept(Iterate(cfg, d, more).c)
    ensures HeadAfter(cfg, c, ticks, n).Some? ==> kept(HeadAfter(cfg, c, ticks, n).value.c)
    decreases n
  {
    if n > 0 {
      var s := Iterate(cfg, c, ticks);
      if s.flow == Continue {
        KeptAtEveryHead(cfg, kept, s.c, s.ticks, n - 1);
      }
    }
  }

  // At every loop head the index counts the successes, and every result is a success, a recorded
  // retry attempt, or a failure that went to replanning; so after any number of iterations.
  lemma {:induction false} BooksAtEveryHead(cfg: Config, c: Context, ticks: seq<Tick>, n: nat)
    requires Books(cfg, c)
    ensures HeadAfter(cfg, c, ticks, n).Some? ==> Books(cfg, HeadAfter(cfg, c, ticks, n).value.c)
  {
    forall d, more | Books(cfg, d)
      ensures Iterate(cfg, d, more).flow == Continue ==> Books(cfg, Iterate(cfg, d, more).c)
    {
      IterateStage(cfg, d, more);
    }
    KeptAtEveryHead(cfg, d => Books(cfg, d), c, ticks, n);
  }

  // Wherever a run stops: no step is called more often than the policy allows, none succeeds twice, the index
  // counts the successes, and results = successes + recorded attempts + failures sent to replanning
  // (plus the one that ended the run when there is nobody to replan).
  lemma {:induction false} LedgerTheorem(cfg: Config, plan: Plan, aborted: bool, ticks: seq<Tick>)
    ensures Ledger(cfg, Execute(cfg, Fresh(plan, aborted), ticks).0)
  {
    var c := Start(Fresh(plan, aborted));
    StartBooks(cfg, plan, aborted);
    LoopStage(cfg, c, ticks);
    SettleKeepsBooks(LoopEnd(cfg, c, ticks));
    SameBooksTransfer(cfg, LoopEnd(cfg, c, ticks).c, Execute(cfg, Fresh(plan, aborted), ticks).0);
  }

  // The plans a run can be given: the first one, and those of its ticks.
  ghost function Offered(plan: Plan, ticks: seq<Tick>): (plans: set<Plan>)
    ensures plan in plans && Offers(plans, ticks)
  {
    {plan} + set t | t in ticks && t.replan.NewPlan? :: t.replan.plan
  }

  // The checkpoint was taken for an offered plan whose first id comes again.
  ghost predicate StartsTwice(k: Checkpoint, plans: set<Plan>) {
    exists q :: q in plans && InitialOf(k, q) && Ids(q.steps)[0] in Ids(q.steps)[1..]
  }

  // What every checkpoint says: it was taken for an offered plan or at a result; the counts agree and nothing
  // is completed twice; what remains is neither completed nor current, except when a plan begins with an id that
  // comes again.  And while nobody has replanned, it splits the plan's ids, in order, into completed, current and
  // remaining, exactly when none of the ids behind it comes again.
  ghost predicate Truthful(k: Checkpoint, d: Context, plan: Plan, plans: set<Plan>) {
    && (InitialFrom(k, plans) || Taken(k, d.results))
    && k.statistics.stepsCompleted == |k.completed| && Distinct(k.completed)
    && (Sound(k) <==> !StartsTwice(k, plans))
    && (Unreplanned(d) ==>
          var ids := Ids(plan.steps);
          && Listed(k) <= ids
          && (Partitions(k, ids) <==> InitialOf(k, plan) || NoneAgain(ids, |Listed(k)|)))
  }

  lemma {:induction false} CheckpointTheorem(cfg: Config, plan: Plan, aborted: bool, ticks: seq<Tick>)
    ensures var d := Execute(cfg, Fresh(plan, aborted), ticks).0;
      forall k :: k in d.checkpoints ==> Truthful(k, d, plan, Offered(plan, ticks))
  {
    var d, plans := Execute(cfg, Fresh(plan, aborted), ticks).0, Offered(plan, ticks);
    RunChecked(cfg, plan, aborted, ticks);
    forall k | k in d.checkpoints
      ensures Truthful(k, d, plan, plans)
    {
      CheckedTruthful(plans, plan, d, k);
    }
  }

  lemma {:induction false} RunChecked(cfg: Config, plan: Plan, aborted: bool, ticks: seq<Tick>)
    ensures Checked(Offered(plan, ticks), plan, Execute(cfg, Fresh(plan, aborted), ticks).0)
  {
    var c, plans := Start(Fresh(plan, aborted)), Offered(plan, ticks);
    StartBooks(cfg, plan, aborted);
    MorePlans({plan}, plans, plan, c);
    LoopChecked(cfg, plans, plan, c, ticks);
    SettleKeepsBooks(LoopEnd(cfg, c, ticks));
  }

  lemma {:induction false} MorePlans(few: set<Plan>, plans: set<Plan>, p: Plan, c: Context)
    requires Checked(few, p, c) && few <= plans
    ensures Checked(plans, p, c)
  {
  }

  lemma {:induction false} CheckedTruthful(plans: set<Plan>, p: Plan, d: Context, k: Checkpoint)
    requires Checked(plans, p, d) && p in plans && k in d.checkpoints
    ensures Truthful(k, d, p, plans)
  {
    forall q | InitialOf(k, q)
      ensures Partitions(k, Ids(q.steps)) && k.current == Ids(q.steps)[0]
      ensures Sound(k) <==> k.current !in Ids(q.steps)[1..]
    {
      InitialPartitions(k, q);
    }
    if Unreplanned(d) && Follows(k, Ids(p.steps)) {
      PartitionsIff(k, Ids(p.steps));
    }
  }

  // The validator's verdict on every checkpoint of every run: one taken for a plan passes unless the first id is
  // empty, one taken at a result passes exactly if the step failed and its id is not empty.
  lemma {:induction false} CheckpointVerdict(cfg: Config, plan: Plan, aborted: bool, ticks: seq<Tick>)
    ensures var d := Execute(cfg, Fresh(plan, aborted), ticks).0;
      forall k :: k in d.checkpoints ==>
        || (InitialFrom(k, Offered(plan, ticks)) && (Accepted(k) <==> k.current != ""))
        || exists j: nat :: TakenAt(k, d.results, j)
                         && (Accepted(k) <==> !d.results[j].success && d.results[j].stepId != "")
  {
    RunChecked(cfg, plan, aborted, ticks);
    var d := Execute(cfg, Fresh(plan, aborted), ticks).0;
    forall k | k in d.checkpoints && !InitialFrom(k, Offered(plan, ticks))
      ensures exists j: nat :: TakenAt(k, d.results, j)
                            && (Accepted(k) <==> !d.results[j].success && d.results[j].stepId != "")
    {
      var j: nat :| TakenAt(k, d.results, j);
    }
  }

  // With distinct ids in every plan, every checkpoint is sound and splits the plan.
  lemma {:induction false} DistinctPlansSplit(cfg: Config, plan: Plan, aborted: bool, ticks: seq<Tick>)
    requires forall q :: q in Offered(plan, ticks) ==> Distinct(Ids(q.steps))
    ensures var d := Execute(cfg, Fresh(plan, aborted), ticks).0;
      && (forall k :: k in d.checkpoints ==> Sound(k))
      && (Unreplanned(d) ==> forall k :: k in d.checkpoints ==> Partitions(k, Ids(plan.steps)))
  {
    var d := Execute(cfg, Fresh(plan, aborted), ticks).0;
    CheckpointTheorem(cfg, plan, aborted, ticks);
    assert Distinct(Ids(plan.steps));
    forall k | k in d.checkpoints
      ensures Sound(k) && (Unreplanned(d) ==> Partitions(k, Ids(plan.steps)))
    {
      assert Truthful(k, d, plan, Offered(plan, ticks));
    }
  }

  // Past the end of the plan there are as many successes as steps; unreplanned, they are the plan's ids.
  lemma {:induction false} OutOfSteps(p: Plan, c: Context)
    requires InOrder(p, c) && c.index == |Successes(c.results)| && c.CurrentStep().None?
    ensures |Successes(c.results)| >= |c.Steps()|
    ensures Unreplanned(c) ==> Successes(c.results) == Ids(p.steps)
  {
    if Unreplanned(c) {
      assert Ids(p.steps)[..|p.steps|] == Ids(p.steps);
    }
  }

  lemma {:induction false} CompletedStage(p: Plan, s: Stage)
    requires InOrder(p, s.c) && s.c.index == |Successes(s.c.results)|
    requires s.flow != Continue && s.c.machine.status != Completed
    requires s.flow == Break ==> s.c.CurrentStep().None?
    requires Settle(s).0.machine.status == Completed
    ensures var d := Settle(s).0;
      |Successes(d.results)| >= |d.Steps()| && (Unreplanned(d) ==> Successes(d.results) == Ids(p.steps))
  {
    OnlyBreakCompletes(s);
    OutOfSteps(p, s.c);
    SettleKeepsBooks(s);
  }

  // A run that completes without replanning has run the plan's steps, all of them, in order;
  // with replanning it has at least as many successes as the last plan has steps.
  lemma {:induction false} CompletionTheorem(cfg: Config, plan: Plan, aborted: bool, ticks: seq<Tick>)
    requires Execute(cfg, Fresh(plan, aborted), ticks).0.machine.status == Completed
    ensures var d := Execute(cfg, Fresh(plan, aborted), ticks).0;
      && |Successes(d.results)| >= |d.Steps()|
      && (Unreplanned(d) ==> Successes(d.results) == Ids(plan.steps))
  {
    var c := Start(Fresh(plan, aborted));
    StartBooks(cfg, plan, aborted);
    assert !CancelAnnounced(c);
    LoopInOrder(cfg, plan, c, ticks);
    LoopStage(cfg, c, ticks);
    Anything(c, ticks);
    LoopStatus(cfg, c, ticks, ANYTHING);
    LoopRunsOut(cfg, c, ticks);
    CompletedStage(plan, LoopEnd(cfg, c, ticks));
  }

  // The loop breaks off only past the end of the plan.
  lemma {:induction false} LoopRunsOut(cfg: Config, c: Context, ticks: seq<Tick>)
    ensures LoopEnd(cfg, c, ticks).flow == Break ==> LoopEnd(cfg, c, ticks).c.CurrentStep().None?
    decreases |ticks|
  {
    IterateRunsOut(cfg, c, ticks);
    var s := Iterate(cfg, c, ticks);
    if s.flow == Continue {
      LoopRunsOut(cfg, s.c, s.ticks);
    }
  }

  lemma {:induction false} IterateRunsOut(cfg: Config, c: Context, ticks: seq<Tick>)
    ensures Iterate(cfg, c, ticks).flow == Break ==> Iterate(cfg, c, ticks).c.CurrentStep().None?
  {
    WaitKeepsBooks(c, ticks);
    var w := WaitForResume(c, ticks);
    if !c.aborted && w.flow == Continue && w.c.CurrentStep().Some? && w.ticks != [] {
      var id := w.c.CurrentStep().value.id;
      var r := ResultOf(id, w.ticks[0].answer);
      FailGoesOn(cfg, Record(cfg, ActAll(Begin(w.c, id).c, w.ticks[0].actions), r), r, w.ticks[1..]);
    }
  }

  lemma {:induction false} FailGoesOn(cfg: Config, c: Context, r: StepResult, ticks: seq<Tick>)
    ensures Fail(cfg, c, r, ticks).flow != Break
  {
  }
}
