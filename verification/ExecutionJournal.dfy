// What the event log of every run says: which event may follow which, and what the numbers in it mean.
module ExecutionJournal {
  import opened Basics
  import opened Plans
  import opened ExecutionState
  import opened ExecutionHistory
  import opened ExecutionRetry
  import opened ExecutionRun
  import opened ExecutionAccounting
  import opened ExecutionStages
  import opened ExecutionOutcomes
  import opened ExecutionTrail

  // ---- Reading a log ------------------------------------------------------------------------

  // Steps completed so far.
  function Completions(events: seq<Event>): nat {
    if events == [] then 0
    else
      var n := |events| - 1;
      Completions(events[..n]) + if events[n].StepCompletedEvent? then 1 else 0
  }

  // Retries announced so far, for one step and for all.
  function RetriesIn(events: seq<Event>, id: string): nat {
    if events == [] then 0
    else
      var n := |events| - 1;
      RetriesIn(events[..n], id) + if events[n].RetryStarted? && events[n].stepId == id then 1 else 0
  }

  function RetryCount(events: seq<Event>): nat {
    if events == [] then 0
    else
      var n := |events| - 1;
      RetryCount(events[..n]) + if events[n].RetryStarted? then 1 else 0
  }

  // The step that has started and neither completed nor failed since.
  function OpenStep(events: seq<Event>): Option<string> {
    if events == [] then None
    else
      var n := |events| - 1;
      match events[n]
      case StepStartedEvent(id, _) => Some(id)
      case StepCompletedEvent(_) => None
      case StepFailedEvent(_, _) => None
      case _ => OpenStep(events[..n])
  }

  // Paused and not resumed since.
  function PausedIn(events: seq<Event>): bool {
    if events == [] then false
    else
      var n := |events| - 1;
      events[n].ExecutionPaused? || (!events[n].ExecutionResumed? && PausedIn(events[..n]))
  }

  predicate Over(events: seq<Event>) {
    events != [] && var e := events[|events| - 1]; e.ExecutionCompleted? || e.ExecutionFailed?
  }

  // The last thing logged about a step.
  function StepWord(events: seq<Event>, id: string): Option<StepState> {
    if events == [] then None
    else
      var n := |events| - 1;
      match events[n]
      case StepStartedEvent(x, _) => if x == id then Some(StepRunning) else StepWord(events[..n], id)
      case StepCompletedEvent(x) => if x == id then Some(StepCompleted) else StepWord(events[..n], id)
      case StepFailedEvent(x, _) => if x == id then Some(StepFailed) else StepWord(events[..n], id)
      case RetryStarted(x, _, _) => if x == id then Some(StepRetrying) else StepWord(events[..n], id)
      case _ => StepWord(events[..n], id)
  }

  // The step completed, or failed, when it was last heard of.
  predicate WordIsFinal(events: seq<Event>, id: string) {
    StepWord(events, id) == Some(StepCompleted) || StepWord(events, id) == Some(StepFailed)
  }

  // ---- The rules --------------------------------------------------------------------------------

  // The policy retries a failure with this code, after the retries announced so far.
  predicate RetryDue(policy: RetryPolicy, before: seq<Event>, id: string, code: Option<string>) {
    && policy.strategy != NoRetry
    && code.Some? && code.value in policy.retryOn
    && RetriesIn(before, id) + 1 < policy.maxAttempts
  }

  // The log ends with a failure of the step that is to be retried.
  predicate JustFailed(policy: RetryPolicy, before: seq<Event>, id: string) {
    before != []
    && var n := |before| - 1;
      before[n].StepFailedEvent? && before[n].stepId == id && RetryDue(policy, before[..n], id, before[n].errorCode)
  }

  // What may be logged next.
  ghost predicate Allowed(policy: RetryPolicy, before: seq<Event>, e: Event) {
    && !Over(before)
    && (before == [] <==> e.ExecutionStarted?)
    && match e
       case ExecutionStarted(_) => true
       case StepStartedEvent(_, index) => OpenStep(before) == None && index == Completions(before)
       case StepCompletedEvent(id) => OpenStep(before) == Some(id)
       case Progress(id, done, _) => before[|before| - 1] == StepCompletedEvent(id) && done == Completions(before)
       case StepFailedEvent(id, _) => OpenStep(before) == Some(id)
       case RetryStarted(id, attempt, delayMs) =>
         && JustFailed(policy, before, id)
         && attempt == RetriesIn(before, id) + 1
         && delayMs == RetryDelay(attempt, policy)
       case CheckpointCreated(_, _) => OpenStep(before).Some?
       case ExecutionPaused => !PausedIn(before) && !CancelIn(before)
       case ExecutionResumed => PausedIn(before) && !CancelIn(before)
       case ExecutionCancelled(done) => done == Completions(before)
       case ExecutionCompleted(done, _, retries) =>
         && OpenStep(before) == None && !PausedIn(before) && !CancelIn(before)
         && done == Completions(before) && retries == RetryCount(before)
       case ExecutionFailed(step) =>
         && OpenStep(before) == None && !PausedIn(before) && !CancelIn(before)
         && step.Some? && WordIsFinal(before, step.value)
  }

  ghost predicate Journaled(policy: RetryPolicy, events: seq<Event>) {
    forall k :: 0 <= k < |events| ==> Allowed(policy, events[..k], events[k])
  }

  // No retry that is due is left out.
  ghost predicate RetriesFollow(policy: RetryPolicy, events: seq<Event>) {
    forall k :: 0 <= k < |events| && events[k].StepFailedEvent? && JustFailed(policy, events[..k + 1], events[k].stepId)
      ==> k + 1 < |events| && events[k + 1].RetryStarted?
  }

  ghost predicate Log(policy: RetryPolicy, events: seq<Event>) {
    events != [] && Journaled(policy, events) && RetriesFollow(policy, events)
  }

  lemma {:induction false} Appended(events: seq<Event>, e: Event)
    ensures var after := events + [e];
      && after[..|events|] == events
      && Completions(after) == Completions(events) + (if e.StepCompletedEvent? then 1 else 0)
      && (forall id ::
            RetriesIn(after, id) == RetriesIn(events, id) + if e.RetryStarted? && e.stepId == id then 1 else 0)
      && RetryCount(after) == RetryCount(events) + (if e.RetryStarted? then 1 else 0)
      && PausedIn(after) == (e.ExecutionPaused? || (!e.ExecutionResumed? && PausedIn(events)))
      && Over(after) == (e.ExecutionCompleted? || e.ExecutionFailed?)
      && (CancelIn(after) <==> CancelIn(events) || e.ExecutionCancelled?)
  {
    var after := events + [e];
    assert after[..|events|] == events && after[|events|] == e;
    assert forall i :: 0 <= i < |events| ==> after[i] == events[i];
  }

  lemma {:induction false} AppendedSteps(events: seq<Event>, e: Event)
    ensures var after := events + [e];
      && (e.StepStartedEvent? ==> OpenStep(after) == Some(e.stepId))
      && (e.StepCompletedEvent? || e.StepFailedEvent? ==> OpenStep(after) == None)
      && (!e.StepStartedEvent? && !e.StepCompletedEvent? && !e.StepFailedEvent? ==> OpenStep(after) == OpenStep(events))
      && (forall id :: StepWord(after, id) ==
            if e.StepStartedEvent? && e.stepId == id then Some(StepRunning)
            else if e.StepCompletedEvent? && e.stepId == id then Some(StepCompleted)
            else if e.StepFailedEvent? && e.stepId == id then Some(StepFailed)
            else if e.RetryStarted? && e.stepId == id then Some(StepRetrying)
            else StepWord(events, id))
  {
    var after := events + [e];
    assert after[..|events|] == events && after[|events|] == e;
  }

  lemma {:induction false} JournalAppend(policy: RetryPolicy, events: seq<Event>, e: Event)
    requires Journaled(policy, events) && Allowed(policy, events, e)
    ensures Journaled(policy, events + [e])
  {
    var after := events + [e];
    forall k | 0 <= k < |after|
      ensures Allowed(policy, after[..k], after[k])
    {
      assert after[..k] == if k < |events| then events[..k] else events;
    }
  }

  // One more event that asks for no retry.
  lemma {:induction false} LogAppend(policy: RetryPolicy, events: seq<Event>, e: Event)
    requires Log(policy, events) && Allowed(policy, events, e)
    requires e.StepFailedEvent? ==> !RetryDue(policy, events, e.stepId, e.errorCode)
    ensures Log(policy, events + [e])
  {
    JournalAppend(policy, events, e);
    var after := events + [e];
    assert after[..|after|] == after && after[..|events|] == events;
    forall k | 0 <= k < |after| && after[k].StepFailedEvent? && JustFailed(policy, after[..k + 1], after[k].stepId)
      ensures k + 1 < |after| && after[k + 1].RetryStarted?
    {
      if k < |events| {
        assert after[..k + 1] == events[..k + 1];
      }
    }
  }

  // A failure and the retry it asks for.
  lemma {:induction false} LogRetry(policy: RetryPolicy, events: seq<Event>, f: Event, r: Event)
    requires Log(policy, events) && f.StepFailedEvent? && r.RetryStarted?
    requires Allowed(policy, events, f) && Allowed(policy, events + [f], r)
    ensures Log(policy, events + [f] + [r])
  {
    JournalAppend(policy, events, f);
    JournalAppend(policy, events + [f], r);
    var after := events + [f] + [r];
    assert after[|events|] == f && after[|events| + 1] == r;
    assert forall k :: 0 <= k < |events| ==> after[k] == events[k];
    forall k | 0 <= k < |after| && after[k].StepFailedEvent? && JustFailed(policy, after[..k + 1], after[k].stepId)
      ensures k + 1 < |after| && after[k + 1].RetryStarted?
    {
      if k < |events| {
        assert after[..k + 1] == events[..k + 1];
      }
    }
  }

  // ---- The log and the context agree ---------------------------------------------------------------

  ghost predicate PausesTold(c: Context) {
    && Live(c)
    && (c.machine.status == Paused ==> PausedIn(c.events))
    && (c.machine.status in {Running, Replanning} ==> !PausedIn(c.events))
  }

  ghost predicate StepsTold(c: Context) {
    forall x :: WordFits(c, x)
  }

  // A step's state is completed, or failed, exactly when that is the last word on it.
  ghost predicate WordFits(c: Context, x: string) {
    && (c.machine.StateOf(x) == StepCompleted <==> StepWord(c.events, x) == Some(StepCompleted))
    && (c.machine.StateOf(x) == StepFailed <==> StepWord(c.events, x) == Some(StepFailed))
  }

  lemma {:induction false} SameWords(c: Context, d: Context)
    requires StepsTold(c) && d.events == c.events && d.machine.steps == c.machine.steps
    ensures StepsTold(d)
  {
    forall x
      ensures WordFits(d, x)
    {
      assert WordFits(c, x);
    }
  }

  // `reported` successes are recorded and not yet announced.
  ghost predicate Told(cfg: Config, c: Context, reported: nat) {
    && Log(cfg.retryPolicy, c.events) && !Over(c.events)
    && Completions(c.events) + reported == |Successes(c.results)|
    && PausesTold(c) && StepsTold(c)
  }

  ghost predicate Counted(c: Context) {
    && RetryCount(c.events) == SumAttempts(c.attempts)
    && forall x :: RetriesIn(c.events, x) == AttemptsOf(c.attempts, x)
  }

  // An event that is about no step.
  predicate Aside(e: Event) {
    e.CheckpointCreated? || e.Progress? || e.ExecutionPaused? || e.ExecutionResumed? || e.ExecutionCancelled?
  }

  lemma {:induction false} AsideTold(cfg: Config, c: Context, d: Context, e: Event, reported: nat, now: nat)
    requires Told(cfg, c, reported) && Aside(e) && Allowed(cfg.retryPolicy, c.events, e)
    requires d.events == c.events + [e] && d.machine.steps == c.machine.steps && PausesTold(d)
    requires |Successes(d.results)| + reported == |Successes(c.results)| + now
    ensures Told(cfg, d, now) && OpenStep(d.events) == OpenStep(c.events)
    ensures d.attempts == c.attempts && Counted(c) ==> Counted(d)
  {
    Appended(c.events, e);
    AppendedSteps(c.events, e);
    LogAppend(cfg.retryPolicy, c.events, e);
    forall x
      ensures WordFits(d, x)
    {
      assert WordFits(c, x) && d.machine.StateOf(x) == c.machine.StateOf(x);
    }
  }

  lemma {:induction false} ActTold(cfg: Config, c: Context, a: Action)
    requires Told(cfg, c, 0)
    ensures Told(cfg, Act(c, a), 0) && OpenStep(Act(c, a).events) == OpenStep(c.events)
    ensures Counted(c) ==> Counted(Act(c, a))
  {
    var d := Act(c, a);
    ActStatus(c, a);
    if d.events != c.events {
      var e := d.events[|c.events|];
      assert d.events == c.events + [e];
      Appended(c.events, e);
      AsideTold(cfg, c, d, e, 0, 0);
    } else {
      SameWords(c, d);
    }
  }

  lemma {:induction false} ActAllTold(cfg: Config, c: Context, actions: seq<Action>)
    requires Told(cfg, c, 0)
    ensures Told(cfg, ActAll(c, actions), 0) && OpenStep(ActAll(c, actions).events) == OpenStep(c.events)
    ensures Counted(c) ==> Counted(ActAll(c, actions))
    decreases |actions|
  {
    if actions != [] {
      ActTold(cfg, c, actions[0]);
      ActAllTold(cfg, Act(c, actions[0]), actions[1..]);
    }
  }

  lemma {:induction false} WaitTold(cfg: Config, c: Context, ticks: seq<Tick>)
    requires Told(cfg, c, 0)
    ensures var w := WaitForResume(c, ticks);
      Told(cfg, w.c, 0) && OpenStep(w.c.events) == OpenStep(c.events) && (Counted(c) ==> Counted(w.c))
    decreases |ticks|
  {
    if c.machine.status == Paused && ticks != [] {
      ActAllTold(cfg, c, ticks[0].actions);
      WaitTold(cfg, ActAll(c, ticks[0].actions), ticks[1..]);
    }
  }

  // ---- One step -------------------------------------------------------------------------------------

  lemma {:induction false} BeginTold(cfg: Config, c: Context, id: string)
    requires Told(cfg, c, 0) && Counted(c) && OpenStep(c.events) == None && c.index == |Successes(c.results)|
    requires AtHead(c) && Begin(c, id).flow == Continue
    ensures var d := Begin(c, id).c; Told(cfg, d, 0) && Counted(d) && OpenStep(d.events) == Some(id)
  {
    var d, e := Begin(c, id).c, StepStartedEvent(id, c.index);
    Appended(c.events, e);
    AppendedSteps(c.events, e);
    LogAppend(cfg.retryPolicy, c.events, e);
    BeginStatus(c, id);
    forall x
      ensures WordFits(d, x)
    {
      assert WordFits(c, x);
      assert x != id ==> d.machine.StateOf(x) == c.machine.StateOf(x);
    }
  }

  lemma {:induction false} RecordTold(cfg: Config, c: Context, r: StepResult)
    requires Told(cfg, c, 0) && Counted(c) && OpenStep(c.events) == Some(r.stepId)
    ensures var d := Record(cfg, c, r);
      Told(cfg, d, if r.success then 1 else 0) && Counted(d) && OpenStep(d.events) == Some(r.stepId)
  {
    var d := Record(cfg, c, r);
    RecordKeeps(cfg, c, r);
    ResultAppend(c.results, r);
    RecordStatus(cfg, c, r);
    if cfg.enableCheckpoints {
      var e := d.events[|c.events|];
      assert d.events == c.events + [e];
      Appended(c.events, e);
      AsideTold(cfg, c, d, e, 0, if r.success then 1 else 0);
    } else {
      SameWords(c, d);
    }
  }

  lemma {:induction false} SucceedTold(cfg: Config, c: Context, id: string, ticks: seq<Tick>)
    requires Told(cfg, c, 1) && Counted(c) && OpenStep(c.events) == Some(id)
    requires AtHead(c) && c.machine.StateOf(id) == StepRunning
    ensures var d := Succeed(c, id, ticks).c; Told(cfg, d, 0) && Counted(d) && OpenStep(d.events) == None
  {
    var d := Succeed(c, id, ticks).c;
    var e, f := StepCompletedEvent(id), Progress(id, c.CompletedCount(), |c.Steps()|);
    var between := c.(machine := c.machine.Step(id, StepCompleted), index := c.index + 1).Emit(e);
    CompletedTold(cfg, c, between, id);
    Appended(c.events, e);
    SucceedStatus(c, id, ticks);
    EmitKeepsCancel(c, e);
    Appended(between.events, f);
    AsideTold(cfg, between, d, f, 0, 0);
  }

  lemma {:induction false} CompletedTold(cfg: Config, c: Context, d: Context, id: string)
    requires Told(cfg, c, 1) && Counted(c) && OpenStep(c.events) == Some(id) && AtHead(c)
    requires d == c.(machine := c.machine.Step(id, StepCompleted), index := c.index + 1).Emit(StepCompletedEvent(id))
    ensures Told(cfg, d, 0) && Counted(d) && OpenStep(d.events) == None
  {
    var e := StepCompletedEvent(id);
    Appended(c.events, e);
    AppendedSteps(c.events, e);
    LogAppend(cfg.retryPolicy, c.events, e);
    EmitKeepsCancel(c, e);
    forall x
      ensures WordFits(d, x)
    {
      assert WordFits(c, x);
      assert x != id ==> d.machine.StateOf(x) == c.machine.StateOf(x);
    }
  }

  // ---- A failing step ---------------------------------------------------------------------------------

  // The failure is announced, and no retry is due.
  lemma {:induction false} FailureTold(cfg: Config, c: Context, r: StepResult)
    requires Told(cfg, c, 0) && OpenStep(c.events) == Some(r.stepId) && AtHead(c)
    requires !RetryDue(cfg.retryPolicy, c.events, r.stepId, r.errorCode)
    ensures var d := c.(machine := c.machine.Step(r.stepId, StepFailed)).Emit(StepFailedEvent(r.stepId, r.errorCode));
      && Told(cfg, d, 0) && AtHead(d) && OpenStep(d.events) == None && d.machine.StateOf(r.stepId) == StepFailed
      && (Counted(c) ==> Counted(d))
  {
    var e := StepFailedEvent(r.stepId, r.errorCode);
    var d := c.(machine := c.machine.Step(r.stepId, StepFailed)).Emit(e);
    LogAppend(cfg.retryPolicy, c.events, e);
    StepEventTold(c, d, r.stepId, e);
  }

  lemma {:induction false} StepEventTold(c: Context, d: Context, id: string, e: Event)
    requires e.StepFailedEvent? && e.stepId == id && AtHead(c) && PausesTold(c) && StepsTold(c)
    requires d == c.(machine := c.machine.Step(id, StepFailed)).Emit(e)
    ensures AtHead(d) && PausesTold(d) && StepsTold(d) && OpenStep(d.events) == None
    ensures Completions(d.events) == Completions(c.events) && !Over(d.events) && (Counted(c) ==> Counted(d))
  {
    Appended(c.events, e);
    AppendedSteps(c.events, e);
    EmitKeepsCancel(c, e);
    forall x
      ensures WordFits(d, x)
    {
      assert WordFits(c, x);
      assert x != id ==> d.machine.StateOf(x) == c.machine.StateOf(x);
    }
  }

  lemma {:induction false} SleepingTold(cfg: Config, c: Context, r: StepResult)
    requires Told(cfg, c, 0) && Counted(c) && OpenStep(c.events) == Some(r.stepId) && AtHead(c)
    requires RetryDue(cfg.retryPolicy, c.events, r.stepId, r.errorCode)
    ensures var d := c.(machine := c.machine.Step(r.stepId, StepFailed)).Emit(StepFailedEvent(r.stepId, r.errorCode));
      var slept := Sleeping(cfg, d, r.stepId);
      Told(cfg, slept, 0) && Counted(slept) && OpenStep(slept.events) == None && AtHead(slept)
  {
    var id, e := r.stepId, StepFailedEvent(r.stepId, r.errorCode);
    var d := c.(machine := c.machine.Step(id, StepFailed)).Emit(e);
    var slept := Sleeping(cfg, d, id);
    var attempt := AttemptsOf(c.attempts, id) + 1;
    var f := RetryStarted(id, attempt, RetryDelay(attempt, cfg.retryPolicy));
    StepEventTold(c, d, id, e);
    assert d.events[..|c.events|] == c.events;
    assert RetriesIn(d.events, id) == AttemptsOf(d.attempts, id);
    LogRetry(cfg.retryPolicy, c.events, e, f);
    SleptTold(d, slept, id, f);
  }

  lemma {:induction false} SleptTold(d: Context, slept: Context, id: string, f: Event)
    requires PausesTold(d) && StepsTold(d) && Counted(d) && AtHead(d) && OpenStep(d.events) == None
    requires f.RetryStarted? && f.stepId == id
    requires slept == d.(attempts := d.attempts[id := AttemptsOf(d.attempts, id) + 1],
                         machine := d.machine.Step(id, StepRetrying)).Emit(f)
    ensures PausesTold(slept) && StepsTold(slept) && Counted(slept) && AtHead(slept) && OpenStep(slept.events) == None
    ensures Completions(slept.events) == Completions(d.events) && !Over(slept.events)
  {
    Appended(d.events, f);
    AppendedSteps(d.events, f);
    EmitKeepsCancel(d, f);
    SumAttemptsUpdate(d.attempts, id, AttemptsOf(d.attempts, id) + 1);
    forall x
      ensures WordFits(slept, x)
    {
      assert WordFits(d, x);
      assert x != id ==> slept.machine.StateOf(x) == d.machine.StateOf(x);
    }
  }

  lemma {:induction false} StepTold(cfg: Config, c: Context, id: string)
    requires Told(cfg, c, 0) && c.machine.StateOf(id) == StepRetrying
    ensures Told(cfg, c.(machine := c.machine.Step(id, StepRunning)), 0)
  {
    var d := c.(machine := c.machine.Step(id, StepRunning));
    forall x
      ensures WordFits(d, x)
    {
      assert WordFits(c, x);
      assert x != id ==> d.machine.StateOf(x) == c.machine.StateOf(x);
    }
  }

  // What the loop leaves when it is done with a step that failed.
  ghost predicate FailTold(cfg: Config, c: Context, id: string, s: Stage) {
    && Told(cfg, s.c, 0) && OpenStep(s.c.events) == None && s.flow != Break
    && (s.flow == Continue ==> Counted(s.c))
    && (s.flow.Throw? && s.c.machine.status in {Running, Replanning} ==>
          s.c.machine.StateOf(id) == StepFailed && s.c.CurrentStep() == c.CurrentStep())
  }

  lemma {:induction false} RetryTold(cfg: Config, c: Context, r: StepResult, ticks: seq<Tick>)
    requires Told(cfg, c, 0) && Counted(c) && OpenStep(c.events) == Some(r.stepId) && AtHead(c)
    requires RetryDue(cfg.retryPolicy, c.events, r.stepId, r.errorCode)
    ensures var d := c.(machine := c.machine.Step(r.stepId, StepFailed)).Emit(StepFailedEvent(r.stepId, r.errorCode));
      var s := Retry(cfg, d, r.stepId, ticks);
      Told(cfg, s.c, 0) && Counted(s.c) && OpenStep(s.c.events) == None && (s.flow == Continue || s.flow == Starved)
  {
    var d := c.(machine := c.machine.Step(r.stepId, StepFailed)).Emit(StepFailedEvent(r.stepId, r.errorCode));
    SleepingTold(cfg, c, r);
    WakingTold(cfg, d, r.stepId, ticks);
  }

  lemma {:induction false} WakingTold(cfg: Config, c: Context, id: string, ticks: seq<Tick>)
    requires c.machine.StateOf(id) == StepFailed && AttemptsOf(c.attempts, id) + 1 < cfg.retryPolicy.maxAttempts
    requires var slept := Sleeping(cfg, c, id); Told(cfg, slept, 0) && Counted(slept) && OpenStep(slept.events) == None
    ensures var s := Retry(cfg, c, id, ticks);
      Told(cfg, s.c, 0) && Counted(s.c) && OpenStep(s.c.events) == None && (s.flow == Continue || s.flow == Starved)
  {
    RetryIs(cfg, c, id, ticks);
    if ticks != [] {
      WokenTold(cfg, Sleeping(cfg, c, id), id, ticks[0].actions);
    }
  }

  lemma {:induction false} WokenTold(cfg: Config, slept: Context, id: string, actions: seq<Action>)
    requires Told(cfg, slept, 0) && Counted(slept) && OpenStep(slept.events) == None
    requires slept.machine.StateOf(id) == StepRetrying
    ensures var woken := ActAll(slept, actions);
      var again := woken.(machine := woken.machine.Step(id, StepRunning));
      Told(cfg, again, 0) && Counted(again) && OpenStep(again.events) == None
  {
    ActAllTold(cfg, slept, actions);
    ActAllKeepsBooks(slept, actions);
    assert AgreesOn(slept, ActAll(slept, actions), id);
    StepTold(cfg, ActAll(slept, actions), id);
  }

  lemma {:induction false} ReplanTold(cfg: Config, c: Context, id: string, ticks: seq<Tick>)
    requires Told(cfg, c, 0) && Counted(c) && OpenStep(c.events) == None && AtHead(c)
    requires c.machine.StateOf(id) == StepFailed
    ensures FailTold(cfg, c, id, RequestReplan(c, id, ticks))
  {
    var asked := c.(history := c.history.Add(ReplanRequested(id)));
    if c.machine.status == Running {
      var replanning := asked.(machine := asked.machine.Move(Replanning));
      MovedTold(cfg, c, replanning);
      if ticks != [] {
        ReplanIs(c, id, ticks);
        EntryAppend(c.history.entries, ReplanRequested(id));
        AnswerTold(cfg, c, replanning, id, ticks);
      }
    } else {
      AskedTold(cfg, c, asked);
    }
  }

  lemma {:induction false} AnswerTold(cfg: Config, c: Context, replanning: Context, id: string, ticks: seq<Tick>)
    requires Told(cfg, replanning, 0) && Counted(replanning) && OpenStep(replanning.events) == None
    requires replanning.machine.status == Replanning && replanning.machine.StateOf(id) == StepFailed && ticks != []
    requires replanning.plan == c.plan && replanning.index == c.index
    ensures FailTold(cfg, c, id, Replanned(ActAll(replanning, ticks[0].actions), ticks[0].replan, ticks[1..]))
  {
    var answered := ActAll(replanning, ticks[0].actions);
    ActAllTold(cfg, replanning, ticks[0].actions);
    ActAllStatus(replanning, ticks[0].actions);
    ActAllSameTrail(replanning, ticks[0].actions);
    ActAllKeepsBooks(replanning, ticks[0].actions);
    ReplannedTold(cfg, answered, ticks[0].replan, ticks[1..]);
    FailToldFrom(cfg, c, answered, id, Replanned(answered, ticks[0].replan, ticks[1..]));
  }

  lemma {:induction false} AskedTold(cfg: Config, c: Context, asked: Context)
    requires Told(cfg, c, 0) && Counted(c)
    requires asked == c.(history := asked.history)
    ensures Told(cfg, asked, 0) && Counted(asked)
  {
    assert CancelAnnounced(asked) == CancelAnnounced(c);
    SameWords(c, asked);
  }

  // A move between statuses that are neither paused nor final.
  lemma {:induction false} MovedTold(cfg: Config, c: Context, d: Context)
    requires Told(cfg, c, 0) && Counted(c)
    requires d == c.(machine := c.machine.Move(d.machine.status), history := d.history)
    requires c.machine.status in {Running, Replanning} && d.machine.status in {Running, Replanning}
    ensures Told(cfg, d, 0) && Counted(d)
  {
    assert CancelAnnounced(d) == CancelAnnounced(c);
    SameWords(c, d);
  }

  lemma {:induction false} FailToldFrom(cfg: Config, c: Context, answered: Context, id: string, s: Stage)
    requires Told(cfg, s.c, 0) && Counted(s.c) && s.c.events == answered.events && s.flow != Break
    requires s.c.machine.StateOf(id) == answered.machine.StateOf(id)
    requires OpenStep(answered.events) == None && answered.machine.StateOf(id) == StepFailed
    requires answered.plan == c.plan && answered.index == c.index
    requires s.flow.Throw? && s.c.machine.status in {Running, Replanning} ==>
      s.c.CurrentStep() == answered.CurrentStep()
    ensures FailTold(cfg, c, id, s)
  {
  }

  lemma {:induction false} ReplannedTold(cfg: Config, c: Context, replan: Replan, rest: seq<Tick>)
    requires Told(cfg, c, 0) && Counted(c) && c.machine.status in {Replanning, Cancelled}
    ensures var s := Replanned(c, replan, rest);
      && Told(cfg, s.c, 0) && Counted(s.c) && s.c.events == c.events && s.flow != Break
      && (s.flow.Throw? && s.c.machine.status in {Running, Replanning} ==> s.c.CurrentStep() == c.CurrentStep())
  {
    if replan.NewPlan? {
      var d := SetPlan(c, replan.plan);
      assert CancelAnnounced(d) == CancelAnnounced(c);
      SameWords(c, d);
      if d.machine.CanMove(Running) {
        MovedTold(cfg, d, d.(machine := d.machine.Move(Running)));
      }
    }
  }

  lemma {:induction false} FailToldStage(cfg: Config, c: Context, r: StepResult, ticks: seq<Tick>)
    requires Told(cfg, c, 0) && Counted(c) && OpenStep(c.events) == Some(r.stepId) && AtHead(c)
    requires c.machine.StateOf(r.stepId) == StepRunning
    ensures FailTold(cfg, c, r.stepId, Fail(cfg, c, r, ticks))
  {
    var d := c.(machine := c.machine.Step(r.stepId, StepFailed)).Emit(StepFailedEvent(r.stepId, r.errorCode));
    FailIs(cfg, c, r, ticks);
    if RetryDue(cfg.retryPolicy, c.events, r.stepId, r.errorCode) {
      RetryTold(cfg, c, r, ticks);
      DueTold(cfg, c, d, r, ticks);
    } else {
      FailureTold(cfg, c, r);
      NotDueTold(cfg, d, r, ticks);
    }
  }

  lemma {:induction false} DueTold(cfg: Config, c: Context, d: Context, r: StepResult, ticks: seq<Tick>)
    requires Counted(c) && RetryDue(cfg.retryPolicy, c.events, r.stepId, r.errorCode) && d.attempts == c.attempts
    requires var s := Retry(cfg, d, r.stepId, ticks);
      Told(cfg, s.c, 0) && Counted(s.c) && OpenStep(s.c.events) == None && (s.flow == Continue || s.flow == Starved)
    ensures FailTold(cfg, c, r.stepId, AfterFailure(cfg, d, r, ticks))
  {
  }

  lemma {:induction false} NotDueTold(cfg: Config, c: Context, r: StepResult, ticks: seq<Tick>)
    requires Told(cfg, c, 0) && Counted(c) && OpenStep(c.events) == None && AtHead(c)
    requires c.machine.StateOf(r.stepId) == StepFailed
    requires ShouldRetry(c.attempts, cfg.retryPolicy, r.stepId, r.errorCode) ==>
      AttemptsOf(c.attempts, r.stepId) + 1 >= cfg.retryPolicy.maxAttempts
    ensures FailTold(cfg, c, r.stepId, AfterFailure(cfg, c, r, ticks))
  {
    if ShouldRetry(c.attempts, cfg.retryPolicy, r.stepId, r.errorCode) {
      ExhaustedTold(cfg, c, r.stepId, ticks);
    } else if cfg.canReplan {
      ReplanTold(cfg, c, r.stepId, ticks);
    }
  }

  lemma {:induction false} ExhaustedTold(cfg: Config, c: Context, id: string, ticks: seq<Tick>)
    requires Told(cfg, c, 0) && OpenStep(c.events) == None && c.machine.StateOf(id) == StepFailed
    requires AttemptsOf(c.attempts, id) + 1 >= cfg.retryPolicy.maxAttempts
    ensures FailTold(cfg, c, id, Retry(cfg, c, id, ticks))
  {
    var attempt := AttemptsOf(c.attempts, id) + 1;
    var d := c.(attempts := c.attempts[id := attempt]);
    assert CancelAnnounced(d) == CancelAnnounced(c);
    SameWords(c, d);
  }

  // ---- Whole runs ---------------------------------------------------------------------------------------

  ghost predicate ToldHead(cfg: Config, c: Context) {
    Books(cfg, c) && AtHead(c) && Told(cfg, c, 0) && Counted(c) && OpenStep(c.events) == None
  }

  ghost predicate StageTold(cfg: Config, s: Stage) {
    && Told(cfg, s.c, 0)
    && (s.flow == Continue || s.flow == Break ==> Counted(s.c) && OpenStep(s.c.events) == None)
    && (s.flow.Throw? && s.flow.fault != SignalAborted && s.c.machine.status in {Running, Replanning} ==>
          OpenStep(s.c.events) == None && s.c.CurrentStep().Some? && TriedBefore(s.c, s.c.CurrentStep().value.id))
  }

  predicate TriedBefore(c: Context, id: string) {
    c.machine.StateOf(id) == StepCompleted || c.machine.StateOf(id) == StepFailed
  }

  lemma {:induction false} AnsweredTold(cfg: Config, c: Context, r: StepResult, ticks: seq<Tick>)
    requires Told(cfg, c, 0) && Counted(c) && OpenStep(c.events) == Some(r.stepId) && AtHead(c)
    requires c.machine.StateOf(r.stepId) == StepRunning
    requires c.CurrentStep().Some? && c.CurrentStep().value.id == r.stepId
    ensures var d := Record(cfg, c, r);
      StageTold(cfg, if r.success then Succeed(d, r.stepId, ticks) else Fail(cfg, d, r, ticks))
  {
    RecordTold(cfg, c, r);
    RecordStatus(cfg, c, r);
    RecordKeeps(cfg, c, r);
    if r.success {
      SucceedTold(cfg, Record(cfg, c, r), r.stepId, ticks);
    } else {
      FailToldStage(cfg, Record(cfg, c, r), r, ticks);
    }
  }

  lemma {:induction false} CannotBegin(cfg: Config, c: Context, id: string)
    requires ToldHead(cfg, c) && Begin(c, id).flow != Continue
    ensures TriedBefore(c, id)
  {
    BeginStage(cfg, c, id);
    assert Tallied(cfg, c, id);
  }

  lemma {:induction false} RunStepTold(cfg: Config, c: Context, id: string, ticks: seq<Tick>)
    requires ToldHead(cfg, c) && c.CurrentStep().Some? && c.CurrentStep().value.id == id
    ensures StageTold(cfg, RunStep(cfg, c, id, ticks))
  {
    BeginStage(cfg, c, id);
    if Begin(c, id).flow != Continue {
      CannotBegin(cfg, c, id);
    } else {
      BeginTold(cfg, c, id);
      BeginStatus(c, id);
      if ticks != [] {
        var begun, d := Begin(c, id).c, ActAll(Begin(c, id).c, ticks[0].actions);
        ActAllTold(cfg, begun, ticks[0].actions);
        ActAllStatus(begun, ticks[0].actions);
        AnswerArrives(cfg, c, id, ticks[0].actions);
        AnsweredTold(cfg, d, ResultOf(id, ticks[0].answer), ticks[1..]);
      }
    }
  }

  // A step that succeeds is completed: its result is stored, the index moves on, and the last two events say so.
  lemma {:induction false} SucceededIs(cfg: Config, c: Context, id: string, ticks: seq<Tick>)
    requires ToldHead(cfg, c) && c.CurrentStep().Some? && c.CurrentStep().value.id == id
    requires Begin(c, id).flow == Continue && ticks != []
    requires ticks[0].answer.Answered? && ticks[0].answer.success
    ensures var s, code, effort := RunStep(cfg, c, id, ticks), ticks[0].answer.errorCode, ticks[0].answer.effort;
      && (s.flow == Continue || s.flow == Break) && s.ticks == ticks[1..]
      && s.c.results == c.results + [StepResult(id, true, code, effort)]
      && s.c.index == c.index + 1 && s.c.plan == c.plan && s.c.attempts == c.attempts
      && s.c.machine.StateOf(id) == StepCompleted
      && (s.flow == Break <==> s.c.index >= |s.c.Steps()|)
      && |s.c.events| >= 2
      && s.c.events[|s.c.events| - 2..]
         == [StepCompletedEvent(id), Progress(id, |Successes(s.c.results)|, |s.c.Steps()|)]
  {
    var begun, r := Begin(c, id).c, ResultOf(id, ticks[0].answer);
    var arrived := ActAll(begun, ticks[0].actions);
    AnswerArrives(cfg, c, id, ticks[0].actions);
    ActAllKeepsBooks(begun, ticks[0].actions);
    RecordKeeps(cfg, arrived, r);
    RunStepIs(cfg, c, id, ticks);
    CompletionIs(Record(cfg, arrived, r), id, ticks[1..]);
  }

  lemma {:induction false} CompletionIs(c: Context, id: string, ticks: seq<Tick>)
    requires c.machine.StateOf(id) == StepRunning
    ensures var s := Succeed(c, id, ticks);
      && (s.flow == Continue || s.flow == Break) && s.ticks == ticks
      && s.c.results == c.results && s.c.plan == c.plan && s.c.attempts == c.attempts && s.c.index == c.index + 1
      && s.c.machine.StateOf(id) == StepCompleted
      && (s.flow == Break <==> s.c.index >= |s.c.Steps()|)
      && |s.c.events| >= 2
      && s.c.events[|s.c.events| - 2..] == [StepCompletedEvent(id), Progress(id, |Successes(c.results)|, |c.Steps()|)]
  {
  }

  // The error code of a failing answer; an executor that throws has one too.
  function CodeOf(a: Answer): Option<string> {
    match a
    case Answered(_, code, _) => code
    case Threw => Some("STEP_EXECUTION_ERROR")
  }

  // A step that fails runs again exactly when the policy retries at all, lists its code, and has an attempt left,
  // and the sleep is over; then its retries are one more.
  lemma {:induction false} RetriedIff(cfg: Config, c: Context, id: string, ticks: seq<Tick>)
    requires ToldHead(cfg, c) && c.CurrentStep().Some? && c.CurrentStep().value.id == id
    requires Begin(c, id).flow == Continue && ticks != [] && (ticks[0].answer.Threw? || !ticks[0].answer.success)
    ensures var s, policy, code := RunStep(cfg, c, id, ticks), cfg.retryPolicy, CodeOf(ticks[0].answer);
      && (s.flow == Continue && s.c.machine.StateOf(id) == StepRunning
          <==> && policy.strategy != NoRetry && code.Some? && code.value in policy.retryOn
               && RetriesIn(c.events, id) + 1 < policy.maxAttempts
               && |ticks| > 1)
      && (s.flow == Continue && s.c.machine.StateOf(id) == StepRunning ==>
            RetriesIn(s.c.events, id) == RetriesIn(c.events, id) + 1)
  {
    RunStepTold(cfg, c, id, ticks);
    var d, r := FailureArrives(cfg, c, id, ticks);
    FailureRetriedIff(cfg, d, r, ticks[1..]);
  }

  // The context in which a failing answer is recorded, and what it has in common with the loop head.
  lemma {:induction false} FailureArrives(cfg: Config, c: Context, id: string, ticks: seq<Tick>)
    returns (d: Context, r: StepResult)
    requires ToldHead(cfg, c) && Begin(c, id).flow == Continue
    requires ticks != [] && (ticks[0].answer.Threw? || !ticks[0].answer.success)
    ensures RunStep(cfg, c, id, ticks) == Fail(cfg, d, r, ticks[1..])
    ensures r.stepId == id && r.errorCode == CodeOf(ticks[0].answer) && d.machine.StateOf(id) == StepRunning
    ensures d.attempts == c.attempts && d.plan == c.plan && d.index == c.index
    ensures d.machine.status in {Running, Paused, Cancelled}
    ensures c.machine.status != Paused ==>
      (d.machine.status == Running <==>
        c.machine.status == Running && Cancel !in ticks[0].actions && !LeavesPaused(ticks[0].actions, false))
  {
    var begun := Begin(c, id).c;
    var arrived := ActAll(begun, ticks[0].actions);
    r := ResultOf(id, ticks[0].answer);
    d := Record(cfg, arrived, r);
    BeginStatus(c, id);
    ActionsIs(begun, ticks[0].actions);
    AnswerArrives(cfg, c, id, ticks[0].actions);
    ActAllKeepsBooks(begun, ticks[0].actions);
    RecordKeeps(cfg, arrived, r);
    RunStepIs(cfg, c, id, ticks);
  }

  lemma {:induction false} FailureRetriedIff(cfg: Config, c: Context, r: StepResult, ticks: seq<Tick>)
    requires c.machine.StateOf(r.stepId) == StepRunning
    ensures var s, policy := Fail(cfg, c, r, ticks), cfg.retryPolicy;
      && (s.flow == Continue && s.c.machine.StateOf(r.stepId) == StepRunning
          <==> && policy.strategy != NoRetry && r.errorCode.Some? && r.errorCode.value in policy.retryOn
               && AttemptsOf(c.attempts, r.stepId) + 1 < policy.maxAttempts
               && ticks != [])
      && (s.flow == Continue && s.c.machine.StateOf(r.stepId) == StepRunning ==>
            AttemptsOf(s.c.attempts, r.stepId) == AttemptsOf(c.attempts, r.stepId) + 1)
  {
    var id := r.stepId;
    var d := c.(machine := c.machine.Step(id, StepFailed)).Emit(StepFailedEvent(id, r.errorCode));
    FailIs(cfg, c, r, ticks);
    if AttemptsOf(c.attempts, id) + 1 < cfg.retryPolicy.maxAttempts {
      RetryIs(cfg, d, id, ticks);
      if ticks != [] {
        ActAllKeepsBooks(Sleeping(cfg, d, id), ticks[0].actions);
      }
    }
    ReplanKeepsState(d, id, ticks);
  }

  // The policy answers for a failure: it retries it, or has just run out of attempts.
  predicate Covered(policy: RetryPolicy, before: seq<Event>, id: string, code: Option<string>) {
    && policy.strategy != NoRetry && code.Some? && code.value in policy.retryOn
    && RetriesIn(before, id) + 1 <= policy.maxAttempts
  }

  // A step that fails is replanned exactly when the policy does not answer for it, there is a planner, the answer
  // finds the run neither paused nor cancelled, and the planner gives a plan before anybody cancels.  The run then
  // goes on with that plan at the same index.
  lemma {:induction false} ReplannedIff(cfg: Config, c: Context, id: string, ticks: seq<Tick>)
    requires ToldHead(cfg, c) && c.machine.status != Paused
    requires c.CurrentStep().Some? && c.CurrentStep().value.id == id
    requires Begin(c, id).flow == Continue && ticks != [] && (ticks[0].answer.Threw? || !ticks[0].answer.success)
    ensures var s := RunStep(cfg, c, id, ticks);
      && (s.flow == Continue && s.c.machine.StateOf(id) == StepFailed
          <==> && !Covered(cfg.retryPolicy, c.events, id, CodeOf(ticks[0].answer)) && cfg.canReplan
               && c.machine.status == Running && Cancel !in ticks[0].actions && !LeavesPaused(ticks[0].actions, false)
               && |ticks| > 1 && ticks[1].replan.NewPlan? && Cancel !in ticks[1].actions)
      && (s.flow == Continue && s.c.machine.StateOf(id) == StepFailed ==>
            s.c.plan == Some(ticks[1].replan.plan) && s.c.index == c.index)
  {
    var d, r := FailureArrives(cfg, c, id, ticks);
    FailureReplannedIff(cfg, d, r, ticks[1..]);
  }

  lemma {:induction false} FailureReplannedIff(cfg: Config, c: Context, r: StepResult, ticks: seq<Tick>)
    requires c.machine.StateOf(r.stepId) == StepRunning && c.machine.status in {Running, Paused, Cancelled}
    ensures var s, policy, id := Fail(cfg, c, r, ticks), cfg.retryPolicy, r.stepId;
      && (s.flow == Continue && s.c.machine.StateOf(id) == StepFailed
          <==> && !(&& policy.strategy != NoRetry && r.errorCode.Some? && r.errorCode.value in policy.retryOn
                    && AttemptsOf(c.attempts, id) + 1 <= policy.maxAttempts)
               && cfg.canReplan && c.machine.status == Running
               && ticks != [] && ticks[0].replan.NewPlan? && Cancel !in ticks[0].actions)
      && (s.flow == Continue && s.c.machine.StateOf(id) == StepFailed ==>
            s.c.plan == Some(ticks[0].replan.plan) && s.c.index == c.index)
  {
    var id := r.stepId;
    var d := c.(machine := c.machine.Step(id, StepFailed)).Emit(StepFailedEvent(id, r.errorCode));
    FailIs(cfg, c, r, ticks);
    if ShouldRetry(c.attempts, cfg.retryPolicy, id, r.errorCode) {
      if AttemptsOf(c.attempts, id) + 1 < cfg.retryPolicy.maxAttempts {
        RetryIs(cfg, d, id, ticks);
      }
    } else if cfg.canReplan {
      ReplanKeepsState(d, id, ticks);
      ReplanGoesOnIff(d, id, ticks);
    }
  }

  lemma {:induction false} ReplanGoesOnIff(c: Context, id: string, ticks: seq<Tick>)
    requires c.machine.status in {Running, Paused, Cancelled}
    ensures var s := RequestReplan(c, id, ticks);
      && (s.flow == Continue <==>
            && c.machine.status == Running
            && ticks != [] && ticks[0].replan.NewPlan? && Cancel !in ticks[0].actions)
      && (s.flow == Continue ==> s.c.plan == Some(ticks[0].replan.plan) && s.c.index == c.index)
  {
    if c.machine.status == Running && ticks != [] {
      var asked := c.(history := c.history.Add(ReplanRequested(id)));
      var replanning := asked.(machine := asked.machine.Move(Replanning));
      ReplanIs(c, id, ticks);
      ActionsIs(replanning, ticks[0].actions);
      ActAllKeepsBooks(replanning, ticks[0].actions);
    }
  }

  lemma {:induction false} ReplanKeepsState(c: Context, id: string, ticks: seq<Tick>)
    ensures RequestReplan(c, id, ticks).c.machine.StateOf(id) == c.machine.StateOf(id)
  {
    if ticks != [] {
      var asked := c.(history := c.history.Add(ReplanRequested(id)));
      var replanning := asked.(machine := asked.machine.Move(Replanning));
      ActAllKeepsBooks(replanning, ticks[0].actions);
    }
  }

  lemma {:induction false} IterateTold(cfg: Config, c: Context, ticks: seq<Tick>)
    requires ToldHead(cfg, c)
    ensures StageTold(cfg, Iterate(cfg, c, ticks))
  {
    if !c.aborted {
      WaitTold(cfg, c, ticks);
      WaitStatus(c, ticks);
      WaitKeepsBooks(c, ticks);
      var w := WaitForResume(c, ticks);
      SameBooksTransfer(cfg, c, w.c);
      if w.flow == Continue && w.c.CurrentStep().Some? {
        RunStepTold(cfg, w.c, w.c.CurrentStep().value.id, w.ticks);
      }
    }
  }

  lemma {:induction false} LoopTold(cfg: Config, c: Context, ticks: seq<Tick>)
    requires ToldHead(cfg, c)
    ensures StageTold(cfg, LoopEnd(cfg, c, ticks))
    decreases |ticks|
  {
    IterateTold(cfg, c, ticks);
    IterateStage(cfg, c, ticks);
    Anything(c, ticks);
    IterateStatus(cfg, c, ticks, ANYTHING);
    var s := Iterate(cfg, c, ticks);
    if s.flow == Continue {
      LoopTold(cfg, s.c, s.ticks);
    }
  }

  lemma {:induction false} StartTold(cfg: Config, plan: Plan, aborted: bool)
    ensures ToldHead(cfg, Start(Fresh(plan, aborted)))
  {
    var c := Start(Fresh(plan, aborted));
    StartBooks(cfg, plan, aborted);
    var e := ExecutionStarted(|plan.steps|);
    assert c.events == [] + [e];
    Appended([], e);
    AppendedSteps([], e);
    assert Journaled(cfg.retryPolicy, []);
    JournalAppend(cfg.retryPolicy, [], e);
    assert !CancelAnnounced(c);
  }

  lemma {:induction false} SettleTold(cfg: Config, s: Stage)
    requires s.flow != Continue && StageTold(cfg, s) && StageStatus(s, ANYTHING)
    ensures Log(cfg.retryPolicy, Settle(s).0.events)
  {
    var c := s.c;
    SettledAs(s);
    if s.flow == Break && c.machine.status == Running {
      var e := ExecutionCompleted(|Successes(c.results)|, |c.Steps()|, SumAttempts(c.attempts));
      LogAppend(cfg.retryPolicy, c.events, e);
    } else if EndsInFault(s) {
      assert WordFits(c, c.CurrentStep().value.id);
      LogAppend(cfg.retryPolicy, c.events, ExecutionFailed(Some(c.CurrentStep().value.id)));
    } else if EndsStopped(s) {
      LogAppend(cfg.retryPolicy, c.events, ExecutionCancelled(|Successes(c.results)|));
    }
  }

  // The event log of every run: it begins with the start; each step that starts completes or fails before the next
  // one starts; a failure is followed by a retry exactly when the policy lists its code and attempts remain, with the
  // attempt's number and delay; pauses and resumes alternate; and the end, completed or failed, is the last word.
  lemma {:induction false} JournalTheorem(cfg: Config, plan: Plan, aborted: bool, ticks: seq<Tick>)
    ensures Log(cfg.retryPolicy, Execute(cfg, Fresh(plan, aborted), ticks).0.events)
  {
    var c := Start(Fresh(plan, aborted));
    StartTold(cfg, plan, aborted);
    LoopTold(cfg, c, ticks);
    Anything(c, ticks);
    LoopStatus(cfg, c, ticks, ANYTHING);
    SettleTold(cfg, LoopEnd(cfg, c, ticks));
  }

  lemma {:induction false} ClosedWords(c: Context, last: Status, e: Event)
    requires StepsTold(c) && (e.ExecutionCompleted? || e.ExecutionFailed? || e.ExecutionCancelled?)
    ensures StepsTold(Closed(c, last, e))
  {
    AppendedSteps(c.events, e);
    forall x
      ensures WordFits(Closed(c, last, e), x)
    {
      assert WordFits(c, x);
    }
  }

  lemma {:induction false} SettledWords(cfg: Config, s: Stage)
    requires s.flow != Continue && StageTold(cfg, s) && StageStatus(s, ANYTHING)
    ensures var d := Settle(s).0;
      && StepsTold(d) && d.events != []
      && (d.machine.status == Completed <==> d.events[|d.events| - 1].ExecutionCompleted?)
      && (d.machine.status == Failed <==> d.events[|d.events| - 1].ExecutionFailed?)
  {
    var c := s.c;
    SettledAs(s);
    if s.flow == Break && c.machine.status == Running {
      ClosedWords(c, Completed, ExecutionCompleted(|Successes(c.results)|, |c.Steps()|, SumAttempts(c.attempts)));
    } else if EndsInFault(s) {
      ClosedWords(c, Failed, ExecutionFailed(Some(c.CurrentStep().value.id)));
    } else if EndsStopped(s) {
      ClosedWords(c, Cancelled, ExecutionCancelled(|Successes(c.results)|));
    }
  }

  // A run's log ends with completion, or with failure, exactly when that is its status; and the last word on a step
  // is that it completed, or failed, exactly when that is its state.
  lemma {:induction false} LastWords(cfg: Config, plan: Plan, aborted: bool, ticks: seq<Tick>)
    ensures var d := Execute(cfg, Fresh(plan, aborted), ticks).0;
      && StepsTold(d) && d.events != []
      && (d.machine.status == Completed <==> d.events[|d.events| - 1].ExecutionCompleted?)
      && (d.machine.status == Failed <==> d.events[|d.events| - 1].ExecutionFailed?)
  {
    var c := Start(Fresh(plan, aborted));
    StartTold(cfg, plan, aborted);
    LoopTold(cfg, c, ticks);
    Anything(c, ticks);
    LoopStatus(cfg, c, ticks, ANYTHING);
    SettledWords(cfg, LoopEnd(cfg, c, ticks));
  }
}
