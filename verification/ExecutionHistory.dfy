// Step results, the history log and its statistics.
module ExecutionHistory {
  import opened Basics
  import opened ExecutionState

  // What the executor reports about its own work on a step.
  datatype Effort = Effort(retryAttempts: int, durationMs: real)

  const NO_EFFORT := Effort(0, 0.0)

  datatype StepResult = StepResult(stepId: string, success: bool, errorCode: Option<string>, effort: Effort)

  datatype Entry =
    | Started
    | StepRecorded(stepId: string, success: bool, durationMs: real)
    | ReplanRequested(failedStep: string)
    | Finished(status: Status)

  datatype Statistics = Statistics(
    stepsCompleted: nat,
    stepsFailed: nat,
    stepsSkipped: nat,
    retryAttempts: int,
    stepDurations: map<string, real>)

  // The history as a value: the log, and the latest result recorded for each step.
  datatype Log = Log(entries: seq<Entry>, results: map<string, StepResult>) {
    function Add(e: Entry): Log {
      this.(entries := entries + [e])
    }

    function Record(r: StepResult): Log {
      Log(entries + [StepRecorded(r.stepId, r.success, r.effort.durationMs)], results[r.stepId := r])
    }

    ghost function Tally(): Statistics {
      Statistics(
        |Having(results, true)|,
        |Having(results, false)|,
        0,
        SumValues(Retries(results)),
        Durations(results))
    }
  }

  // What the statistics add up to: every step counts once, as completed or as failed.
  lemma {:induction false} TallyIs(log: Log)
    ensures var s := log.Tally();
      && s.stepsCompleted == |set id | id in log.results && log.results[id].success|
      && s.stepsCompleted + s.stepsFailed == |log.results| && s.stepsSkipped == 0
      && s.stepDurations.Keys == log.results.Keys
      && (forall id :: id in log.results ==> s.stepDurations[id] == log.results[id].effort.durationMs)
      && (forall id :: id in log.results ==>
            s.retryAttempts == log.results[id].effort.retryAttempts
                               + Log([], log.results - {id}).Tally().retryAttempts)
      && (log.results == map[] ==> s.retryAttempts == 0)
  {
    assert Having(log.results, true) == set id | id in log.results && log.results[id].success;
    assert Having(log.results, true) + Having(log.results, false) == log.results.Keys;
    assert Having(log.results, true) !! Having(log.results, false);
    assert |log.results| == |log.results.Keys|;
    forall id | id in log.results
      ensures SumValues(Retries(log.results))
           == log.results[id].effort.retryAttempts + SumValues(Retries(log.results - {id}))
    {
      TallyStep(log.results, id);
    }
  }

  // The steps whose latest result is a success, or is not.
  function Having(results: map<string, StepResult>, success: bool): set<string> {
    set id | id in results && results[id].success == success
  }

  function Retries(results: map<string, StepResult>): map<string, int> {
    map id | id in results :: results[id].effort.retryAttempts
  }

  function Durations(results: map<string, StepResult>): map<string, real> {
    map id | id in results :: results[id].effort.durationMs
  }

  const NO_HISTORY := Log([], map[])

  // Ids of the successful results, in order.
  function Successes(results: seq<StepResult>): seq<string> {
    if results == [] then []
    else
      var n := |results| - 1;
      Successes(results[..n]) + if results[n].success then [results[n].stepId] else []
  }

  // How many results a step has produced.
  function RunsOf(results: seq<StepResult>, id: string): nat {
    if results == [] then 0
    else
      var n := |results| - 1;
      RunsOf(results[..n], id) + if results[n].stepId == id then 1 else 0
  }

  function ReplanCount(entries: seq<Entry>): nat {
    if entries == [] then 0
    else
      var n := |entries| - 1;
      ReplanCount(entries[..n]) + if entries[n].ReplanRequested? then 1 else 0
  }

  class History {
    var entries: seq<Entry>
    var stepResults: map<string, StepResult>

    constructor ()
      ensures Value() == NO_HISTORY
    {
      entries, stepResults := [], map[];
    }

    function Value(): Log
      reads this
    {
      Log(entries, stepResults)
    }

    method AddEntry(e: Entry)
      modifies this
      ensures Value() == old(Value()).Add(e)
    {
      entries := entries + [e];
    }

    method StepCompleted(r: StepResult)
      modifies this
      ensures Value() == old(Value()).Record(r)
    {
      stepResults := stepResults[r.stepId := r];
      AddEntry(StepRecorded(r.stepId, r.success, r.effort.durationMs));
    }

    // One pass over the latest results, in whatever order the map gives them.
    method GetStatistics() returns (s: Statistics)
      ensures s == Value().Tally()
    {
      var completed, unsuccessful, retryAttempts := 0, 0, 0;
      var stepDurations: map<string, real> := map[];
      var left := stepResults;
      while left != map[]
        invariant left.Keys <= stepResults.Keys && forall id :: id in left ==> left[id] == stepResults[id]
        invariant TallySoFar(stepResults, left, Statistics(completed, unsuccessful, 0, retryAttempts, stepDurations))
        decreases left.Keys
      {
        var id :| id in left;
        var r := left[id];
        TallyNext(stepResults, left, Statistics(completed, unsuccessful, 0, retryAttempts, stepDurations), id);
        if r.success {
          completed := completed + 1;
        } else {
          unsuccessful := unsuccessful + 1;
        }
        retryAttempts := retryAttempts + r.effort.retryAttempts;
        stepDurations := stepDurations[id := r.effort.durationMs];
        left := left - {id};
      }
      s := Statistics(completed, unsuccessful, 0, retryAttempts, stepDurations);
      TallyDone(stepResults, s);
    }
  }

  // What has been counted, with what is left, makes up the whole.
  ghost predicate TallySoFar(all: map<string, StepResult>, left: map<string, StepResult>, s: Statistics) {
    && s.stepsCompleted + |Having(left, true)| == |Having(all, true)|
    && s.stepsFailed + |Having(left, false)| == |Having(all, false)|
    && s.stepsSkipped == 0
    && s.retryAttempts + SumValues(Retries(left)) == SumValues(Retries(all))
    && s.stepDurations.Keys + left.Keys == all.Keys
    && forall id :: id in s.stepDurations ==> s.stepDurations[id] == all[id].effort.durationMs
  }

  // What one more result contributes to the statistics.
  lemma {:induction false} TallyStep(results: map<string, StepResult>, id: string)
    requires id in results
    ensures |Having(results, true)| == |Having(results - {id}, true)| + if results[id].success then 1 else 0
    ensures |Having(results, false)| == |Having(results - {id}, false)| + if results[id].success then 0 else 1
    ensures SumValues(Retries(results)) == results[id].effort.retryAttempts + SumValues(Retries(results - {id}))
  {
    assert Having(results, results[id].success) == Having(results - {id}, results[id].success) + {id};
    assert Having(results, !results[id].success) == Having(results - {id}, !results[id].success);
    SumValuesRemove(Retries(results), id);
    assert Retries(results) - {id} == Retries(results - {id});
  }

  lemma {:induction false} TallyNext(
    all: map<string, StepResult>, left: map<string, StepResult>, s: Statistics, id: string)
    requires TallySoFar(all, left, s) && id in left && id in all && left[id] == all[id] && left.Keys <= all.Keys
    ensures TallySoFar(all, left - {id}, Statistics(
                         if left[id].success then s.stepsCompleted + 1 else s.stepsCompleted,
                         if left[id].success then s.stepsFailed else s.stepsFailed + 1,
                         s.stepsSkipped,
                         s.retryAttempts + left[id].effort.retryAttempts,
                         s.stepDurations[id := left[id].effort.durationMs]))
  {
    TallyStep(left, id);
    assert (left - {id}).Keys == left.Keys - {id};
  }

  lemma {:induction false} TallyDone(all: map<string, StepResult>, s: Statistics)
    requires TallySoFar(all, map[], s)
    ensures s == Log([], all).Tally()
  {
    assert Having(map[], true) == {} && Having(map[], false) == {} && Retries(map[]) == map[];
    assert s.stepDurations == Durations(all);
  }
}
