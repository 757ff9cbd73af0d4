// Runs with pauses: how much they can do besides waiting for a resume, and the only ways they can fail to return.
module ExecutionLiveness {
  import opened Plans
  import opened ExecutionState
  import opened ExecutionRun
  import opened ExecutionHistory
  import opened ExecutionAccounting
  import opened ExecutionStages
  import opened ExecutionGrowth
  import opened ExecutionTermination

  // ---- Awaits besides polling -----------------------------------------------------------------

  // Polls of the pause flag before one iteration.
  ghost function Polls(c: Context, ticks: seq<Tick>): nat {
    if c.aborted then 0 else |ticks| - |WaitForResume(c, ticks).ticks|
  }

  ghost function PollsOf(cfg: Config, c: Context, ticks: seq<Tick>): nat
    decreases |ticks|
  {
    var s := Iterate(cfg, c, ticks);
    Polls(c, ticks) + if s.flow == Continue then PollsOf(cfg, s.c, s.ticks) else 0
  }

  // The other awaits a run has come through: answers, sleeps before a retry, and new plans.
  ghost function WorkOf(cfg: Config, c: Context, ticks: seq<Tick>): int {
    |ticks| - |LoopEnd(cfg, c, ticks).ticks| - PollsOf(cfg, c, ticks)
  }

  lemma {:induction false} StepWork(universe: set<string>, cfg: Config, c: Context, id: string, ticks: seq<Tick>)
    requires Books(cfg, c) && Within(universe, c) && ReplansKnown(In(universe), ticks) && id in universe
    ensures var s := RunStep(cfg, c, id, ticks);
      && |ticks| - 2 <= |s.ticks| <= |ticks|
      && (|s.ticks| < |ticks| ==> Room(universe, cfg, c) >= 1)
      && (s.flow == Continue ==> Room(universe, cfg, s.c) == Room(universe, cfg, c) - 1)
  {
    RunStepTicks(cfg, c, id, ticks);
    StepTerminates(universe, cfg, c, id, ticks);
    BeginStage(cfg, c, id);
    var begun := Begin(c, id);
    if begun.flow == Continue {
      assert Within(universe, begun.c);
      UnderwayBound(universe, cfg, begun.c, id);
    }
  }

  // What one iteration does besides polling is paid for by the room it uses up.
  lemma {:induction false} IterateWork(universe: set<string>, cfg: Config, c: Context, ticks: seq<Tick>)
    requires Books(cfg, c) && Within(universe, c) && ReplansKnown(In(universe), ticks)
    ensures var s := Iterate(cfg, c, ticks);
      && 0 <= |ticks| - |s.ticks| - Polls(c, ticks) <= 2
      && (|ticks| - |s.ticks| > Polls(c, ticks) ==> Room(universe, cfg, c) >= 1)
      && (s.flow == Continue ==> Room(universe, cfg, s.c) == Room(universe, cfg, c) - 1)
  {
    if !c.aborted {
      WaitGrows(In(universe), c, ticks);
      WaitTicks(c, ticks);
      WaitKeepsBooks(c, ticks);
      var w := WaitForResume(c, ticks);
      WithinGrows(universe, c, w.c);
      SameBooksTransfer(cfg, c, w.c);
      if w.flow == Continue && w.c.CurrentStep().Some? {
        CurrentKnown(In(universe), w.c);
        StepWork(universe, cfg, w.c, w.c.CurrentStep().value.id, w.ticks);
      }
    }
  }

  lemma {:induction false} LoopWork(universe: set<string>, cfg: Config, c: Context, ticks: seq<Tick>)
    requires Books(cfg, c) && Within(universe, c) && ReplansKnown(In(universe), ticks)
    ensures 0 <= WorkOf(cfg, c, ticks) <= 2 * Room(universe, cfg, c)
    decreases |ticks|
  {
    IterateWork(universe, cfg, c, ticks);
    BooksGiveLedger(cfg, c);
    ResultsBound(universe, cfg, c);
    var s := Iterate(cfg, c, ticks);
    if s.flow == Continue {
      IterateStage(cfg, c, ticks);
      IterateGrows(In(universe), cfg, c, ticks);
      WithinGrows(universe, c, s.c);
      LoopWork(universe, cfg, s.c, s.ticks);
    }
  }

  // However often a run is paused, it comes through at most 2 * |universe| * max(1, maxAttempts) awaits besides
  // those that wait for a resume.
  lemma {:induction false} WorkTheorem(universe: set<string>, cfg: Config, plan: Plan, aborted: bool, ticks: seq<Tick>)
    requires StepsKnown(In(universe), plan.steps) && ReplansKnown(In(universe), ticks)
    ensures 0 <= WorkOf(cfg, Start(Fresh(plan, aborted)), ticks) <= 2 * |universe| * RunLimit(cfg)
  {
    StartHead(universe, cfg, plan, aborted);
    LoopWork(universe, cfg, Start(Fresh(plan, aborted)), ticks);
  }

  // ---- More ticks change nothing that has happened -------------------------------------------

  lemma {:induction false} WaitExtends(c: Context, ticks: seq<Tick>, more: seq<Tick>)
    requires WaitForResume(c, ticks).flow != Starved
    ensures WaitForResume(c, ticks + more)
         == WaitForResume(c, ticks).(ticks := WaitForResume(c, ticks).ticks + more)
    decreases |ticks|
  {
    if c.machine.status == Paused {
      assert (ticks + more)[0] == ticks[0] && (ticks + more)[1..] == ticks[1..] + more;
      WaitExtends(ActAll(c, ticks[0].actions), ticks[1..], more);
    }
  }

  lemma {:induction false} FailExtends(cfg: Config, c: Context, r: StepResult, ticks: seq<Tick>, more: seq<Tick>)
    requires Fail(cfg, c, r, ticks).flow != Starved
    ensures Fail(cfg, c, r, ticks + more) == Fail(cfg, c, r, ticks).(ticks := Fail(cfg, c, r, ticks).ticks + more)
  {
    if ticks != [] {
      assert (ticks + more)[0] == ticks[0] && (ticks + more)[1..] == ticks[1..] + more;
    }
  }

  lemma {:induction false} AnswerExtends(cfg: Config, c: Context, r: StepResult, ticks: seq<Tick>, more: seq<Tick>)
    requires AfterAnswer(cfg, c, r, ticks).flow != Starved
    ensures AfterAnswer(cfg, c, r, ticks + more)
         == AfterAnswer(cfg, c, r, ticks).(ticks := AfterAnswer(cfg, c, r, ticks).ticks + more)
  {
    if !r.success {
      FailExtends(cfg, c, r, ticks, more);
    }
  }

  lemma {:induction false} RunStepExtends(cfg: Config, c: Context, id: string, ticks: seq<Tick>, more: seq<Tick>)
    requires RunStep(cfg, c, id, ticks).flow != Starved
    ensures RunStep(cfg, c, id, ticks + more)
         == RunStep(cfg, c, id, ticks).(ticks := RunStep(cfg, c, id, ticks).ticks + more)
  {
    var begun := Begin(c, id);
    if begun.flow == Continue {
      assert (ticks + more)[0] == ticks[0] && (ticks + more)[1..] == ticks[1..] + more;
      RunStepIs(cfg, c, id, ticks);
      RunStepIs(cfg, c, id, ticks + more);
      var r := ResultOf(id, ticks[0].answer);
      AnswerExtends(cfg, Record(cfg, ActAll(begun.c, ticks[0].actions), r), r, ticks[1..], more);
    }
  }

  lemma {:induction false} IterateExtends(cfg: Config, c: Context, ticks: seq<Tick>, more: seq<Tick>)
    requires Iterate(cfg, c, ticks).flow != Starved
    ensures Iterate(cfg, c, ticks + more)
         == Iterate(cfg, c, ticks).(ticks := Iterate(cfg, c, ticks).ticks + more)
  {
    if !c.aborted {
      WaitExtends(c, ticks, more);
      var w := WaitForResume(c, ticks);
      if w.c.CurrentStep().Some? {
        RunStepExtends(cfg, w.c, w.c.CurrentStep().value.id, w.ticks, more);
      }
    }
  }

  lemma {:induction false} LoopExtends(cfg: Config, c: Context, ticks: seq<Tick>, more: seq<Tick>)
    requires LoopEnd(cfg, c, ticks).flow != Starved
    ensures LoopEnd(cfg, c, ticks + more).flow == LoopEnd(cfg, c, ticks).flow
    ensures LoopEnd(cfg, c, ticks + more).c == LoopEnd(cfg, c, ticks).c
    decreases |ticks|
  {
    IterateExtends(cfg, c, ticks, more);
    var s := Iterate(cfg, c, ticks);
    if s.flow == Continue {
      LoopExtends(cfg, s.c, s.ticks, more);
    }
  }

  // ---- Endless scripts ----------------------------------------------------------------------------

  // What happens at all the awaits there will ever be.
  type Script = nat -> Tick

  function Till(script: Script, n: nat): (ticks: seq<Tick>)
    ensures |ticks| == n && forall i :: 0 <= i < n ==> ticks[i] == script(i)
  {
    seq(n, i requires 0 <= i < n => script(i))
  }

  function From(script: Script, k: nat): Script {
    (i: nat) => script(k + i)
  }

  lemma {:induction false} TillSplits(script: Script, k: nat, n: nat)
    ensures Till(script, k + n) == Till(script, k) + Till(From(script, k), n)
  {
  }

  ghost predicate AllKnown(known: string -> bool, script: Script) {
    forall n :: ReplansKnown(known, Till(script, n))
  }

  ghost function Ending(cfg: Config, c: Context): seq<Tick> -> Stage {
    (ticks: seq<Tick>) => LoopEnd(cfg, c, ticks)
  }

  // Where the loop is after the first n awaits, for each n.
  ghost function Future(ending: seq<Tick> -> Stage, script: Script): nat -> Stage {
    (n: nat) => ending(Till(script, n))
  }

  ghost predicate Ends(future: nat -> Stage) {
    exists n :: future(n).flow != Starved
  }

  ghost predicate StaysPaused(future: nat -> Stage) {
    exists n :: PausedFrom(future, n)
  }

  ghost predicate PausedFrom(future: nat -> Stage, n: nat) {
    forall m: nat :: m >= n ==> future(m).flow == Starved && future(m).c.machine.status == Paused
  }

  lemma {:induction false} StarvedWaitPaused(c: Context, ticks: seq<Tick>)
    requires WaitForResume(c, ticks).flow == Starved
    ensures WaitForResume(c, ticks).c.machine.status == Paused
    decreases |ticks|
  {
    if ticks != [] {
      StarvedWaitPaused(ActAll(c, ticks[0].actions), ticks[1..]);
    }
  }

  // Nobody ever resumes it.
  lemma {:induction false} NeverResumed(cfg: Config, c: Context, script: Script)
    requires !c.aborted && forall n :: WaitForResume(c, Till(script, n)).flow == Starved
    ensures StaysPaused(Future(Ending(cfg, c), script))
  {
    forall m: nat
      ensures LoopEnd(cfg, c, Till(script, m)).flow == Starved
      ensures LoopEnd(cfg, c, Till(script, m)).c.machine.status == Paused
    {
      StarvedWaitPaused(c, Till(script, m));
    }
    assert PausedFrom(Future(Ending(cfg, c), script), 0);
  }

  // Two more ticks are enough for an iteration to come to an end.
  lemma {:induction false} EnoughTicks(cfg: Config, c: Context, ticks: seq<Tick>, more: seq<Tick>)
    requires c.aborted || WaitForResume(c, ticks).flow == Continue
    requires |more| == 2
    ensures Iterate(cfg, c, ticks + more).flow != Starved
  {
    if !c.aborted {
      WaitExtends(c, ticks, more);
      var w := WaitForResume(c, ticks + more);
      if w.c.CurrentStep().Some? {
        RunStepProgress(cfg, w.c, w.c.CurrentStep().value.id, w.ticks);
      }
    }
  }

  // From the n-th await on, one future is the other one k awaits later.
  ghost predicate Continues(future: nat -> Stage, later: nat -> Stage, n: nat, k: nat)
    requires k <= n
  {
    forall m: nat :: m >= n ==> future(m) == later(m - k)
  }

  ghost predicate Lasting(future: nat -> Stage) {
    forall i: nat, j: nat :: i <= j && future(i).flow != Starved ==> future(j).flow != Starved
  }

  lemma {:induction false} SameFate(future: nat -> Stage, later: nat -> Stage, n: nat, k: nat)
    requires k <= n && Continues(future, later, n, k) && Lasting(later)
    ensures Ends(later) ==> Ends(future)
    ensures StaysPaused(later) ==> StaysPaused(future)
  {
    if j: nat :| later(j).flow != Starved {
      assert later(j + n).flow != Starved;
      assert future(k + j + n) == later(j + n);
    }
    if j :| PausedFrom(later, j) {
      assert PausedFrom(future, k + j + n);
    }
  }

  lemma {:induction false} FutureLasts(cfg: Config, c: Context, script: Script)
    ensures Lasting(Future(Ending(cfg, c), script))
  {
    forall i: nat, j: nat | i <= j && LoopEnd(cfg, c, Till(script, i)).flow != Starved
      ensures LoopEnd(cfg, c, Till(script, j)).flow != Starved
    {
      LongerEnds(cfg, c, Till(script, i), Till(script, j));
    }
  }

  lemma {:induction false} LongerEnds(cfg: Config, c: Context, ticks: seq<Tick>, longer: seq<Tick>)
    requires LoopEnd(cfg, c, ticks).flow != Starved && ticks <= longer
    ensures LoopEnd(cfg, c, longer).flow != Starved
  {
    var more := longer[|ticks|..];
    assert longer == ticks + more;
    LoopExtends(cfg, c, ticks, more);
  }

  // With `ticks` one loop comes to where the other begins with `rest`, so with any more they end alike.
  ghost predicate Reaches(
    ending: seq<Tick> -> Stage, later: seq<Tick> -> Stage, ticks: seq<Tick>, rest: seq<Tick>)
  {
    forall longer, last :: ticks <= longer && last == rest + longer[|ticks|..] ==> ending(longer) == later(last)
  }

  lemma {:induction false} IterateReaches(cfg: Config, c: Context, ticks: seq<Tick>)
    requires Iterate(cfg, c, ticks).flow == Continue
    ensures var s := Iterate(cfg, c, ticks); Reaches(Ending(cfg, c), Ending(cfg, s.c), ticks, s.ticks)
  {
    forall longer | ticks <= longer
      ensures LoopEnd(cfg, c, longer)
           == LoopEnd(cfg, Iterate(cfg, c, ticks).c, Iterate(cfg, c, ticks).ticks + longer[|ticks|..])
    {
      var more := longer[|ticks|..];
      assert longer == ticks + more;
      IterateExtends(cfg, c, ticks, more);
    }
  }

  lemma {:induction false} FutureContinues(
    ending: seq<Tick> -> Stage, later: seq<Tick> -> Stage, script: Script, n: nat, k: nat)
    requires k <= n && Reaches(ending, later, Till(script, n), Till(From(script, k), n - k))
    ensures Continues(Future(ending, script), Future(later, From(script, k)), n, k)
  {
    forall m: nat | m >= n
      ensures ending(Till(script, m)) == later(Till(From(script, k), m - k))
    {
      assert Till(script, n) <= Till(script, m);
      assert Till(From(script, k), m - k) == Till(From(script, k), n - k) + Till(script, m)[n..];
    }
  }

  lemma {:induction false} LaterKnown(known: string -> bool, script: Script, k: nat)
    requires AllKnown(known, script)
    ensures AllKnown(known, From(script, k))
  {
    forall n
      ensures ReplansKnown(known, Till(From(script, k), n))
    {
      TillSplits(script, k, n);
      assert ReplansKnown(known, Till(script, k + n));
    }
  }

  lemma {:induction false} EndsHere(cfg: Config, c: Context, script: Script, n: nat, s: Stage)
    requires s == Iterate(cfg, c, Till(script, n)) && s.flow != Continue && s.flow != Starved
    ensures Ends(Future(Ending(cfg, c), script))
  {
    assert Future(Ending(cfg, c), script)(n) == s;
  }

  lemma {:induction false} HeadContinues(
    universe: set<string>, cfg: Config, c: Context, script: Script, n: nat, s: Stage, k: nat)
    requires Books(cfg, c) && Within(universe, c) && AllKnown(In(universe), script)
    requires s == Iterate(cfg, c, Till(script, n)) && s.flow == Continue
    requires k <= n && s.ticks == Till(From(script, k), n - k)
    ensures Books(cfg, s.c) && Within(universe, s.c) && Room(universe, cfg, s.c) == Room(universe, cfg, c) - 1
    ensures Continues(Future(Ending(cfg, c), script), Future(Ending(cfg, s.c), From(script, k)), n, k)
  {
    IterateReaches(cfg, c, Till(script, n));
    FutureContinues(Ending(cfg, c), Ending(cfg, s.c), script, n, k);
    IterateStage(cfg, c, Till(script, n));
    IterateWork(universe, cfg, c, Till(script, n));
    IterateGrows(In(universe), cfg, c, Till(script, n));
    WithinGrows(universe, c, s.c);
  }

  // The iteration over the first ticks that are enough for it, and where the script goes on after it.
  lemma {:induction false} FirstIteration(cfg: Config, c: Context, script: Script, at: nat)
    returns (n: nat, k: nat, s: Stage)
    requires c.aborted || WaitForResume(c, Till(script, at)).flow == Continue
    ensures s == Iterate(cfg, c, Till(script, n)) && s.flow != Starved
    ensures k <= n && s.ticks == Till(From(script, k), n - k)
  {
    n := at + 2;
    TillSplits(script, at, 2);
    EnoughTicks(cfg, c, Till(script, at), Till(From(script, at), 2));
    s := Iterate(cfg, c, Till(script, n));
    IterateTicks(cfg, c, Till(script, n));
    k := n - |s.ticks|;
    assert s.ticks == Till(From(script, k), n - k);
  }

  // One iteration that is not kept waiting for ever: either the run is over, or it goes on with less room.
  lemma {:induction false} NextHead(universe: set<string>, cfg: Config, c: Context, script: Script, at: nat)
    returns (n: nat, k: nat, d: Context)
    requires Books(cfg, c) && Within(universe, c) && AllKnown(In(universe), script)
    requires c.aborted || WaitForResume(c, Till(script, at)).flow == Continue
    ensures Ends(Future(Ending(cfg, c), script))
         || (&& Books(cfg, d) && Within(universe, d) && Room(universe, cfg, d) == Room(universe, cfg, c) - 1
             && k <= n && Continues(Future(Ending(cfg, c), script), Future(Ending(cfg, d), From(script, k)), n, k))
  {
    var s: Stage;
    n, k, s := FirstIteration(cfg, c, script, at);
    d := s.c;
    if s.flow != Continue {
      EndsHere(cfg, c, script, n, s);
    } else {
      HeadContinues(universe, cfg, c, script, n, s, k);
    }
  }

  lemma {:induction false} LoopLive(universe: set<string>, cfg: Config, c: Context, script: Script)
    requires Books(cfg, c) && Within(universe, c) && AllKnown(In(universe), script)
    ensures Ends(Future(Ending(cfg, c), script)) || StaysPaused(Future(Ending(cfg, c), script))
    decreases Room(universe, cfg, c)
  {
    if !c.aborted && forall n :: WaitForResume(c, Till(script, n)).flow == Starved {
      NeverResumed(cfg, c, script);
    } else {
      var at: nat :| c.aborted || WaitForResume(c, Till(script, at)).flow != Starved;
      WaitKeepsBooks(c, Till(script, at));
      var n, k, d := NextHead(universe, cfg, c, script, at);
      if !Ends(Future(Ending(cfg, c), script)) {
        BooksGiveLedger(cfg, d);
        ResultsBound(universe, cfg, d);
        LaterKnown(In(universe), script, k);
        LoopLive(universe, cfg, d, From(script, k));
        FutureLasts(cfg, d, From(script, k));
        SameFate(Future(Ending(cfg, c), script), Future(Ending(cfg, d), From(script, k)), n, k);
      }
    }
  }

  // Whatever happens at its awaits, a run over step ids from a finite set returns or rejects, unless from some
  // await on it is paused for ever.
  lemma {:induction false} LivenessTheorem(
    universe: set<string>, cfg: Config, plan: Plan, aborted: bool, script: Script)
    requires StepsKnown(In(universe), plan.steps) && AllKnown(In(universe), script)
    ensures || (exists n :: Execute(cfg, Fresh(plan, aborted), Till(script, n)).1 != Suspended)
            || (exists n :: SuspendedFrom(cfg, plan, aborted, script, n))
  {
    var c := Start(Fresh(plan, aborted));
    StartHead(universe, cfg, plan, aborted);
    LoopLive(universe, cfg, c, script);
    var future := Future(Ending(cfg, c), script);
    if n :| future(n).flow != Starved {
      OnlyStarvedSuspends(future(n));
      assert Execute(cfg, Fresh(plan, aborted), Till(script, n)) == Settle(future(n));
    } else {
      var n :| PausedFrom(future, n);
      forall m: nat | m >= n
        ensures SuspendedPaused(Execute(cfg, Fresh(plan, aborted), Till(script, m)))
      {
        assert future(m).flow == Starved;
        assert Execute(cfg, Fresh(plan, aborted), Till(script, m)) == Settle(future(m));
      }
      assert SuspendedFrom(cfg, plan, aborted, script, n);
    }
  }

  ghost predicate SuspendedPaused(end: (Context, Outcome)) {
    end.1 == Suspended && end.0.machine.status == Paused
  }

  ghost predicate SuspendedFrom(cfg: Config, plan: Plan, aborted: bool, script: Script, n: nat) {
    forall m: nat :: m >= n ==> SuspendedPaused(Execute(cfg, Fresh(plan, aborted), Till(script, m)))
  }
}
