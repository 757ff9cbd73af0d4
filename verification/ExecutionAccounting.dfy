// Accounting of a run: what the step index, the results, the retry counters, the step states,
// the history and the event log say about each other, at every point of every run.
module ExecutionAccounting {
  import opened Basics
  import opened ExecutionState
  import opened ExecutionHistory
  import opened ExecutionRetry
  import opened ExecutionRun

  // Calls made to the executor for a step: each is announced by one StepStarted event.
  function CallsOf(events: seq<Event>, id: string): nat {
    if events == [] then 0
    else
      var n := |events| - 1;
      CallsOf(events[..n], id) + if events[n].StepStartedEvent? && events[n].stepId == id then 1 else 0
  }

  // Total time slept before retries of a step.
  function SleepOf(events: seq<Event>, id: string): real {
    if events == [] then 0.0
    else
      var n := |events| - 1;
      SleepOf(events[..n], id) + if events[n].RetryStarted? && events[n].stepId == id then events[n].delayMs else 0.0
  }

  // ---- Appending one element -------------------------------------------------

  lemma {:induction false} EventAppend(events: seq<Event>, e: Event, id: string)
    ensures CallsOf(events + [e], id) == CallsOf(events, id) + if e.StepStartedEvent? && e.stepId == id then 1 else 0
    ensures SleepOf(events + [e], id)
         == SleepOf(events, id) + if e.RetryStarted? && e.stepId == id then e.delayMs else 0.0
  {
    assert (events + [e])[..|events|] == events;
  }

  lemma {:induction false} ResultAppend(results: seq<StepResult>, r: StepResult)
    ensures Successes(results + [r]) == Successes(results) + if r.success then [r.stepId] else []
    ensures forall id :: RunsOf(results + [r], id) == RunsOf(results, id) + if r.stepId == id then 1 else 0
  {
    assert (results + [r])[..|results|] == results;
  }

  lemma {:induction false} EntryAppend(entries: seq<Entry>, e: Entry)
    ensures ReplanCount(entries + [e]) == ReplanCount(entries) + if e.ReplanRequested? then 1 else 0
  {
    assert (entries + [e])[..|entries|] == entries;
  }

  // ---- What each step's books must say -----------------------------------------

  // Nothing recorded about step x differs between c and d.
  ghost predicate AgreesOn(c: Context, d: Context, x: string) {
    && c.machine.StateOf(x) == d.machine.StateOf(x)
    && AttemptsOf(c.attempts, x) == AttemptsOf(d.attempts, x)
    && RunsOf(c.results, x) == RunsOf(d.results, x)
    && (x in Successes(c.results) <==> x in Successes(d.results))
    && (x in c.history.results <==> x in d.history.results)
    && (x in c.history.results ==> c.history.results[x] == d.history.results[x])
    && CallsOf(c.events, x) == CallsOf(d.events, x)
    && SleepOf(c.events, x) == SleepOf(d.events, x)
  }

  ghost predicate LoggedSuccess(c: Context, x: string) {
    x in c.history.results && c.history.results[x].success
  }

  // The books of one step between iterations: every run is either a recorded retry attempt
  // or the one that settled the step, and the attempts stay below the policy's limit.
  ghost predicate Tallied(cfg: Config, c: Context, x: string) {
    var state := c.machine.StateOf(x);
    var attempts := AttemptsOf(c.attempts, x);
    var settled := state == StepCompleted || state == StepFailed;
    && (state == StepPending || state == StepRunning || settled)
    && RunsOf(c.results, x) == attempts + (if settled then 1 else 0)
    && (state == StepPending ==> attempts == 0)
    && (state == StepRunning ==> attempts > 0)
    && (attempts > 0 ==> attempts < cfg.retryPolicy.maxAttempts)
    && (state == StepCompleted <==> x in Successes(c.results))
    && (state == StepCompleted <==> LoggedSuccess(c, x))
    && CallsOf(c.events, x) == RunsOf(c.results, x)
    && SleepOf(c.events, x) == DelaySum(cfg.retryPolicy, attempts)
  }

  // Results that are neither successes, nor recorded retry attempts, nor handed to replanning.
  ghost function Unaccounted(c: Context): int {
    |c.results| - |Successes(c.results)| - SumAttempts(c.attempts) - ReplanCount(c.history.entries)
  }

  // The invariant at every loop head.
  ghost predicate Books(cfg: Config, c: Context) {
    && (forall x :: Tallied(cfg, c, x))
    && Distinct(Successes(c.results))
    && c.index == |Successes(c.results)|
    && Unaccounted(c) == 0
  }

  ghost function RunLimit(cfg: Config): nat {
    if cfg.retryPolicy.maxAttempts > 1 then cfg.retryPolicy.maxAttempts else 1
  }

  // What still holds wherever the run stops, however it stops.
  ghost predicate Ledger(cfg: Config, c: Context) {
    && (forall x :: Bounded(cfg, c, x))
    && Distinct(Successes(c.results))
    && c.index == |Successes(c.results)|
    && 0 <= Unaccounted(c) <= (if cfg.canReplan then 0 else 1)
  }

  ghost predicate Bounded(cfg: Config, c: Context, x: string) {
    && RunsOf(c.results, x) <= CallsOf(c.events, x) <= RunLimit(cfg)
    && (c.machine.StateOf(x) == StepCompleted <==> x in Successes(c.results))
    && (x in Successes(c.results) <==> LoggedSuccess(c, x))
    && SleepOf(c.events, x) == DelaySum(cfg.retryPolicy, SleepsOf(cfg, c, x))
    && SleepsOf(cfg, c, x) < RunLimit(cfg)
  }

  // The attempt that exhausts the policy is counted but not slept on.
  ghost function SleepsOf(cfg: Config, c: Context, x: string): nat {
    var attempts := AttemptsOf(c.attempts, x);
    if attempts > 0 && attempts >= cfg.retryPolicy.maxAttempts then attempts - 1 else attempts
  }

  lemma {:induction false} BooksGiveLedger(cfg: Config, c: Context)
    requires Books(cfg, c)
    ensures Ledger(cfg, c)
  {
    forall x
      ensures Bounded(cfg, c, x)
    {
      assert Tallied(cfg, c, x);
    }
  }

  // ---- The environment touches none of the books --------------------------------

  ghost predicate SameBooks(c: Context, d: Context) {
    && (forall x :: AgreesOn(c, d, x))
    && c.machine.steps == d.machine.steps
    && c.plan == d.plan
    && c.index == d.index
    && c.results == d.results
    && c.attempts == d.attempts
    && c.checkpoints == d.checkpoints
    && c.history.results == d.history.results
    && ReplanCount(c.history.entries) == ReplanCount(d.history.entries)
  }

  lemma {:induction false} ActAgrees(c: Context, a: Action, x: string)
    ensures AgreesOn(c, Act(c, a), x)
  {
    var d := Act(c, a);
    if |d.events| > |c.events| {
      EventAppend(c.events, d.events[|c.events|], x);
      assert d.events == c.events + [d.events[|c.events|]];
    }
  }

  lemma {:induction false} ActKeepsBooks(c: Context, a: Action)
    ensures SameBooks(c, Act(c, a))
  {
    forall x
      ensures AgreesOn(c, Act(c, a), x)
    {
      ActAgrees(c, a, x);
    }
    EntryAppend(c.history.entries, Finished(Cancelled));
  }

  lemma {:induction false} ActAllKeepsBooks(c: Context, actions: seq<Action>)
    ensures SameBooks(c, ActAll(c, actions))
    decreases |actions|
  {
    if actions != [] {
      ActKeepsBooks(c, actions[0]);
      ActAllKeepsBooks(Act(c, actions[0]), actions[1..]);
      var d := Act(c, actions[0]);
      var e := ActAll(c, actions);
      forall x
        ensures AgreesOn(c, e, x)
      {
        assert AgreesOn(c, d, x) && AgreesOn(d, e, x);
      }
    }
  }

  lemma {:induction false} WaitKeepsBooks(c: Context, ticks: seq<Tick>)
    ensures SameBooks(c, WaitForResume(c, ticks).c)
    ensures WaitForResume(c, ticks).flow == Starved ==> WaitForResume(c, ticks).ticks == []
    ensures WaitForResume(c, ticks).flow == Starved || WaitForResume(c, ticks).flow == Continue
    decreases |ticks|
  {
    if c.machine.status == Paused && ticks != [] {
      var d := ActAll(c, ticks[0].actions);
      ActAllKeepsBooks(c, ticks[0].actions);
      WaitKeepsBooks(d, ticks[1..]);
      var e := WaitForResume(c, ticks).c;
      forall x
        ensures AgreesOn(c, e, x)
      {
        assert AgreesOn(c, d, x) && AgreesOn(d, e, x);
      }
    }
  }

  lemma {:induction false} SameBooksTransfer(cfg: Config, c: Context, d: Context)
    requires SameBooks(c, d)
    ensures Books(cfg, c) ==> Books(cfg, d)
    ensures Ledger(cfg, c) ==> Ledger(cfg, d)
  {
    forall x
      ensures Tallied(cfg, c, x) ==> Tallied(cfg, d, x)
      ensures Bounded(cfg, c, x) ==> Bounded(cfg, d, x)
    {
      assert AgreesOn(c, d, x);
    }
  }

  // ---- One step, stage by stage ---------------------------------------------------

  // All books but those of step `id`, and the parts of its own that no stage changes.
  ghost predicate OthersTallied(cfg: Config, c: Context, id: string) {
    && (forall x | x != id :: Tallied(cfg, c, x))
    && Distinct(Successes(c.results))
    && (AttemptsOf(c.attempts, id) > 0 ==> AttemptsOf(c.attempts, id) < cfg.retryPolicy.maxAttempts)
    && SleepOf(c.events, id) == DelaySum(cfg.retryPolicy, AttemptsOf(c.attempts, id))
  }

  // The executor has been called and has not answered.
  ghost predicate Underway(cfg: Config, c: Context, id: string) {
    && OthersTallied(cfg, c, id)
    && c.machine.StateOf(id) == StepRunning
    && RunsOf(c.results, id) == AttemptsOf(c.attempts, id)
    && CallsOf(c.events, id) == RunsOf(c.results, id) + 1
    && id !in Successes(c.results) && !LoggedSuccess(c, id)
    && c.index == |Successes(c.results)|
    && Unaccounted(c) == 0
  }

  // The answer is stored; the step's state is still `state`.
  ghost predicate Reported(cfg: Config, c: Context, id: string, success: bool, state: StepState) {
    && OthersTallied(cfg, c, id)
    && c.machine.StateOf(id) == state
    && RunsOf(c.results, id) == AttemptsOf(c.attempts, id) + 1
    && CallsOf(c.events, id) == RunsOf(c.results, id)
    && (id in Successes(c.results) <==> success)
    && (LoggedSuccess(c, id) <==> success)
    && |Successes(c.results)| == c.index + (if success then 1 else 0)
    && Unaccounted(c) == (if success then 0 else 1)
  }

  lemma {:induction false} BeginTallied(cfg: Config, c: Context, id: string, x: string)
    requires x != id && Tallied(cfg, c, x)
    ensures Tallied(cfg, Begin(c, id).c, x)
  {
    EventAppend(c.events, StepStartedEvent(id, c.index), x);
  }

  lemma {:induction false} BegunUnderway(cfg: Config, c: Context, id: string)
    requires Books(cfg, c) && Tallied(cfg, c, id)
    requires c.machine.StateOf(id) == StepPending || c.machine.StateOf(id) == StepRunning
    ensures Underway(cfg, Begin(c, id).c, id)
  {
    var d := Begin(c, id).c;
    EventAppend(c.events, StepStartedEvent(id, c.index), id);
    forall x | x != id
      ensures Tallied(cfg, d, x)
    {
      BeginTallied(cfg, c, id, x);
    }
  }

  lemma {:induction false} BeginStage(cfg: Config, c: Context, id: string)
    requires Books(cfg, c)
    ensures Begin(c, id).flow == Continue ==> Underway(cfg, Begin(c, id).c, id)
    ensures Begin(c, id).flow != Continue ==> Begin(c, id) == Stage(c, Throw(IllegalTransition), [])
    ensures Begin(c, id).flow == Continue <==>
      c.machine.StateOf(id) == StepPending || c.machine.StateOf(id) == StepRunning
  {
    assert Tallied(cfg, c, id);
    if c.machine.StateOf(id) == StepPending || c.machine.StateOf(id) == StepRunning {
      BegunUnderway(cfg, c, id);
    }
  }

  lemma {:induction false} UnderwaySurvives(cfg: Config, c: Context, d: Context, id: string)
    requires Underway(cfg, c, id) && SameBooks(c, d)
    ensures Underway(cfg, d, id)
  {
    assert AgreesOn(c, d, id);
    forall x | x != id
      ensures Tallied(cfg, d, x)
    {
      assert Tallied(cfg, c, x);
      assert AgreesOn(c, d, x);
    }
  }

  lemma {:induction false} UnderwayLedger(cfg: Config, c: Context, id: string)
    requires Underway(cfg, c, id)
    ensures Ledger(cfg, c)
    ensures CallsOf(c.events, id) <= RunLimit(cfg)
  {
    forall x
      ensures Bounded(cfg, c, x)
    {
      if x != id {
        assert Tallied(cfg, c, x);
      }
    }
  }

  lemma {:induction false} ReportedLedger(cfg: Config, c: Context, id: string, success: bool, state: StepState)
    requires Reported(cfg, c, id, success, state)
    requires !success && state != StepCompleted && !cfg.canReplan
    ensures Ledger(cfg, c)
  {
    forall x
      ensures Bounded(cfg, c, x)
    {
      if x != id {
        assert Tallied(cfg, c, x);
      }
    }
  }

  lemma {:induction false} RecordCalls(cfg: Config, c: Context, r: StepResult, x: string)
    ensures CallsOf(Record(cfg, c, r).events, x) == CallsOf(c.events, x)
    ensures SleepOf(Record(cfg, c, r).events, x) == SleepOf(c.events, x)
  {
    if cfg.enableCheckpoints {
      EventAppend(c.events, Record(cfg, c, r).events[|c.events|], x);
    }
  }

  lemma {:induction false} RecordTallied(cfg: Config, c: Context, r: StepResult, x: string)
    requires x != r.stepId && Tallied(cfg, c, x)
    ensures Tallied(cfg, Record(cfg, c, r), x)
  {
    RecordCalls(cfg, c, r, x);
    ResultAppend(c.results, r);
  }

  lemma {:induction false} RecordOthers(cfg: Config, c: Context, r: StepResult)
    requires Underway(cfg, c, r.stepId)
    ensures OthersTallied(cfg, Record(cfg, c, r), r.stepId)
  {
    forall x | x != r.stepId
      ensures Tallied(cfg, Record(cfg, c, r), x)
    {
      RecordTallied(cfg, c, r, x);
    }
    RecordCalls(cfg, c, r, r.stepId);
    ResultAppend(c.results, r);
    if r.success {
      DistinctAppend(Successes(c.results), r.stepId);
    }
  }

  // What recording a result leaves alone, and what it adds.
  lemma {:induction false} RecordKeeps(cfg: Config, c: Context, r: StepResult)
    ensures var d := Record(cfg, c, r);
      && d.plan == c.plan && d.index == c.index && d.machine == c.machine && d.attempts == c.attempts
      && d.results == c.results + [r] && d.history == c.history.Record(r)
  {
  }

  lemma {:induction false} RecordedIsReported(cfg: Config, c: Context, d: Context, r: StepResult)
    requires Underway(cfg, c, r.stepId) && OthersTallied(cfg, d, r.stepId)
    requires d.index == c.index && d.machine == c.machine && d.attempts == c.attempts
    requires d.results == c.results + [r] && d.history == c.history.Record(r)
    requires CallsOf(d.events, r.stepId) == CallsOf(c.events, r.stepId)
    ensures Reported(cfg, d, r.stepId, r.success, StepRunning)
  {
    RecordedCounts(c, d, r);
    RecordedLogs(c, d, r);
  }

  lemma {:induction false} RecordedCounts(c: Context, d: Context, r: StepResult)
    requires d.attempts == c.attempts && d.results == c.results + [r] && d.history == c.history.Record(r)
    ensures |Successes(d.results)| == |Successes(c.results)| + if r.success then 1 else 0
    ensures Unaccounted(d) == Unaccounted(c) + if r.success then 0 else 1
    ensures RunsOf(d.results, r.stepId) == RunsOf(c.results, r.stepId) + 1
  {
    ResultAppend(c.results, r);
    EntryAppend(c.history.entries, StepRecorded(r.stepId, r.success, r.effort.durationMs));
  }

  lemma {:induction false} RecordedLogs(c: Context, d: Context, r: StepResult)
    requires d.results == c.results + [r] && d.history == c.history.Record(r)
    requires r.stepId !in Successes(c.results)
    ensures r.stepId in Successes(d.results) <==> r.success
    ensures LoggedSuccess(d, r.stepId) <==> r.success
  {
    ResultAppend(c.results, r);
  }

  lemma {:induction false} RecordStage(cfg: Config, c: Context, r: StepResult)
    requires Underway(cfg, c, r.stepId)
    ensures Reported(cfg, Record(cfg, c, r), r.stepId, r.success, StepRunning)
  {
    RecordOthers(cfg, c, r);
    RecordCalls(cfg, c, r, r.stepId);
    RecordKeeps(cfg, c, r);
    RecordedIsReported(cfg, c, Record(cfg, c, r), r);
  }

  lemma {:induction false} SucceedStage(cfg: Config, c: Context, id: string, ticks: seq<Tick>)
    requires Reported(cfg, c, id, true, StepRunning)
    ensures Books(cfg, Succeed(c, id, ticks).c)
    ensures Succeed(c, id, ticks).flow == Continue || Succeed(c, id, ticks).flow == Break
  {
    var d := Succeed(c, id, ticks).c;
    forall x
      ensures Tallied(cfg, d, x)
    {
      EventAppend(c.events, StepCompletedEvent(id), x);
      EventAppend(c.events + [StepCompletedEvent(id)], Progress(id, c.CompletedCount(), |c.Steps()|), x);
      if x != id {
        assert Tallied(cfg, c, x);
      }
    }
  }

  // Counting the attempt accounts for the failure.
  lemma {:induction false} AttemptStage(cfg: Config, c: Context, id: string)
    requires Reported(cfg, c, id, false, StepFailed)
    ensures Unaccounted(c.(attempts := c.attempts[id := AttemptsOf(c.attempts, id) + 1])) == 0
  {
    SumAttemptsUpdate(c.attempts, id, AttemptsOf(c.attempts, id) + 1);
  }

  lemma {:induction false} ExhaustedStage(cfg: Config, c: Context, id: string)
    requires Reported(cfg, c, id, false, StepFailed)
    requires AttemptsOf(c.attempts, id) + 1 == cfg.retryPolicy.maxAttempts
    ensures Ledger(cfg, c.(attempts := c.attempts[id := AttemptsOf(c.attempts, id) + 1]))
  {
    var d := c.(attempts := c.attempts[id := AttemptsOf(c.attempts, id) + 1]);
    AttemptStage(cfg, c, id);
    forall x
      ensures Bounded(cfg, d, x)
    {
      if x != id {
        assert Tallied(cfg, c, x);
      }
    }
  }

  // Step `id` retries: everything is booked, only its state is not back to running.
  lemma {:induction false} RetryBooked(cfg: Config, c: Context, id: string, d: Context, state: StepState)
    requires Reported(cfg, c, id, false, StepFailed)
    requires var attempt := AttemptsOf(c.attempts, id) + 1;
      && attempt < cfg.retryPolicy.maxAttempts
      && d == c.(attempts := c.attempts[id := attempt], machine := c.machine.Step(id, state))
              .Emit(RetryStarted(id, attempt, RetryDelay(attempt, cfg.retryPolicy)))
    requires state == StepRunning || state == StepRetrying
    ensures state == StepRunning ==> Books(cfg, d)
    ensures Ledger(cfg, d)
  {
    var attempt := AttemptsOf(c.attempts, id) + 1;
    AttemptStage(cfg, c, id);
    forall x
      ensures state == StepRunning || x != id ==> Tallied(cfg, d, x)
      ensures Bounded(cfg, d, x)
    {
      EventAppend(c.events, RetryStarted(id, attempt, RetryDelay(attempt, cfg.retryPolicy)), x);
      if x != id {
        assert Tallied(cfg, c, x);
      }
    }
  }

  lemma {:induction false} StepCommutes(c: Context, d: Context, id: string, state: StepState)
    requires SameBooks(c, d)
    ensures SameBooks(c.(machine := c.machine.Step(id, state)), d.(machine := d.machine.Step(id, state)))
  {
    var e, f := c.(machine := c.machine.Step(id, state)), d.(machine := d.machine.Step(id, state));
    forall x
      ensures AgreesOn(e, f, x)
    {
      assert AgreesOn(c, d, x);
    }
  }

  lemma {:induction false} WokenBooks(cfg: Config, c: Context, slept: Context, id: string, actions: seq<Action>)
    requires Reported(cfg, c, id, false, StepFailed)
    requires AttemptsOf(c.attempts, id) + 1 < cfg.retryPolicy.maxAttempts
    requires slept == Sleeping(cfg, c, id)
    ensures var woken := ActAll(slept, actions);
      && woken.machine.StateOf(id) == StepRetrying
      && Books(cfg, woken.(machine := woken.machine.Step(id, StepRunning)))
  {
    var woken := ActAll(slept, actions);
    ActAllKeepsBooks(slept, actions);
    assert AgreesOn(slept, woken, id);
    var again := slept.(machine := slept.machine.Step(id, StepRunning));
    assert c.machine.steps[id := StepRetrying][id := StepRunning] == c.machine.steps[id := StepRunning];
    RetryBooked(cfg, c, id, again, StepRunning);
    StepCommutes(slept, woken, id, StepRunning);
    SameBooksTransfer(cfg, again, woken.(machine := woken.machine.Step(id, StepRunning)));
  }

  // The context in which the loop sleeps before a retry.
  function Sleeping(cfg: Config, c: Context, id: string): Context {
    var attempt := AttemptsOf(c.attempts, id) + 1;
    c.(attempts := c.attempts[id := attempt], machine := c.machine.Step(id, StepRetrying))
    .Emit(RetryStarted(id, attempt, RetryDelay(attempt, cfg.retryPolicy)))
  }

  lemma {:induction false} RetryStage(cfg: Config, c: Context, id: string, ticks: seq<Tick>)
    requires Reported(cfg, c, id, false, StepFailed)
    requires AttemptsOf(c.attempts, id) + 1 <= cfg.retryPolicy.maxAttempts
    ensures var s := Retry(cfg, c, id, ticks);
      && Ledger(cfg, s.c)
      && (s.flow == Continue ==> Books(cfg, s.c))
      && s.flow != Break && s.flow != Throw(IllegalTransition) && s.flow != Throw(StepFault)
  {
    if AttemptsOf(c.attempts, id) + 1 == cfg.retryPolicy.maxAttempts {
      ExhaustedStage(cfg, c, id);
    } else {
      var slept := Sleeping(cfg, c, id);
      RetryBooked(cfg, c, id, slept, StepRetrying);
      if ticks != [] {
        WokenBooks(cfg, c, slept, id, ticks[0].actions);
        var woken := ActAll(slept, ticks[0].actions);
        BooksGiveLedger(cfg, woken.(machine := woken.machine.Step(id, StepRunning)));
      }
    }
  }

  // Asking for a new plan accounts for the failure too.
  lemma {:induction false} ReplanBooked(cfg: Config, c: Context, d: Context, id: string)
    requires Reported(cfg, c, id, false, StepFailed)
    requires d.(machine := c.machine, history := c.history, plan := c.plan, checkpoints := c.checkpoints) == c
    requires d.machine.steps == c.machine.steps && d.history == c.history.Add(ReplanRequested(id))
    ensures Books(cfg, d)
  {
    EntryAppend(c.history.entries, ReplanRequested(id));
    forall x
      ensures Tallied(cfg, d, x)
    {
      if x != id {
        assert Tallied(cfg, c, x);
      }
    }
  }

  lemma {:induction false} ReplanStage(cfg: Config, c: Context, id: string, ticks: seq<Tick>)
    requires Reported(cfg, c, id, false, StepFailed)
    ensures Books(cfg, RequestReplan(c, id, ticks).c)
  {
    var d := c.(history := c.history.Add(ReplanRequested(id)));
    ReplanBooked(cfg, c, d, id);
    var e := d.(machine := d.machine.Move(Replanning));
    ReplanBooked(cfg, c, e, id);
    if ticks != [] {
      var f := ActAll(e, ticks[0].actions);
      ActAllKeepsBooks(e, ticks[0].actions);
      SameBooksTransfer(cfg, e, f);
      forall g: Context | g.(machine := f.machine, plan := f.plan, checkpoints := f.checkpoints) == f
                          && g.machine.steps == f.machine.steps
        ensures Books(cfg, g)
      {
        forall x
          ensures Tallied(cfg, g, x)
        {
          assert Tallied(cfg, f, x);
        }
      }
    }
  }

  lemma {:induction false} FailStage(cfg: Config, c: Context, r: StepResult, ticks: seq<Tick>)
    requires Reported(cfg, c, r.stepId, false, StepRunning) && !r.success
    ensures var s := Fail(cfg, c, r, ticks);
      && Ledger(cfg, s.c)
      && (s.flow == Continue ==> Books(cfg, s.c))
      && s.flow != Break
  {
    var id := r.stepId;
    var d := c.(machine := c.machine.Step(id, StepFailed)).Emit(StepFailedEvent(id, r.errorCode));
    assert Reported(cfg, d, id, false, StepFailed) by {
      EventAppend(c.events, StepFailedEvent(id, r.errorCode), id);
      forall x | x != id
        ensures Tallied(cfg, d, x)
      {
        assert Tallied(cfg, c, x);
        EventAppend(c.events, StepFailedEvent(id, r.errorCode), x);
      }
    }
    if ShouldRetry(d.attempts, cfg.retryPolicy, id, r.errorCode) {
      RetryStage(cfg, d, id, ticks);
    } else if cfg.canReplan {
      ReplanStage(cfg, d, id, ticks);
      BooksGiveLedger(cfg, RequestReplan(d, id, ticks).c);
    } else {
      ReportedLedger(cfg, d, id, false, StepFailed);
    }
  }

  lemma {:induction false} RunStepStage(cfg: Config, c: Context, id: string, ticks: seq<Tick>)
    requires Books(cfg, c)
    ensures var s := RunStep(cfg, c, id, ticks);
      && Ledger(cfg, s.c)
      && (s.flow == Continue || s.flow == Break ==> Books(cfg, s.c))
  {
    BeginStage(cfg, c, id);
    BooksGiveLedger(cfg, c);
    var begun := Begin(c, id);
    if begun.flow == Continue {
      UnderwayLedger(cfg, begun.c, id);
      if ticks != [] {
        var d := ActAll(begun.c, ticks[0].actions);
        ActAllKeepsBooks(begun.c, ticks[0].actions);
        UnderwaySurvives(cfg, begun.c, d, id);
        var r := ResultOf(id, ticks[0].answer);
        RecordStage(cfg, d, r);
        if r.success {
          SucceedStage(cfg, Record(cfg, d, r), id, ticks[1..]);
          BooksGiveLedger(cfg, Succeed(Record(cfg, d, r), id, ticks[1..]).c);
        } else {
          FailStage(cfg, Record(cfg, d, r), r, ticks[1..]);
        }
      }
    }
  }

  lemma {:induction false} IterateStage(cfg: Config, c: Context, ticks: seq<Tick>)
    requires Books(cfg, c)
    ensures var s := Iterate(cfg, c, ticks);
      && Ledger(cfg, s.c)
      && (s.flow == Continue || s.flow == Break ==> Books(cfg, s.c))
  {
    BooksGiveLedger(cfg, c);
    if !c.aborted {
      var w := WaitForResume(c, ticks);
      WaitKeepsBooks(c, ticks);
      SameBooksTransfer(cfg, c, w.c);
      if w.flow == Continue && w.c.CurrentStep().Some? {
        RunStepStage(cfg, w.c, w.c.CurrentStep().value.id, w.ticks);
      }
    }
  }

  lemma {:induction false} LoopStage(cfg: Config, c: Context, ticks: seq<Tick>)
    requires Books(cfg, c)
    ensures var s := LoopEnd(cfg, c, ticks);
      && Ledger(cfg, s.c)
      && (s.flow == Break ==> Books(cfg, s.c))
    decreases |ticks|
  {
    IterateStage(cfg, c, ticks);
    var s := Iterate(cfg, c, ticks);
    if s.flow == Continue {
      LoopStage(cfg, s.c, s.ticks);
    }
  }
}
