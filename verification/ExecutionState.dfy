// The two transition tables of an execution and the state machine that enforces them.
module ExecutionState {
  datatype Status =
    Pending | Running | Waiting | Retrying | Replanning | Completed | Cancelled | Failed | Paused

  datatype StepState =
    StepPending | StepRunning | StepCompleted | StepFailed | StepSkipped | StepRetrying | StepWaiting

  function NextStatuses(s: Status): set<Status> {
    match s
    case Pending => {Running, Cancelled}
    case Running => {Waiting, Retrying, Replanning, Completed, Cancelled, Failed, Paused}
    case Waiting => {Running, Cancelled, Failed}
    case Retrying => {Running, Failed, Cancelled}
    case Replanning => {Running, Cancelled, Failed}
    case Completed => {}
    case Cancelled => {}
    case Failed => {}
    case Paused => {Running, Cancelled}
  }

  function NextStepStates(s: StepState): set<StepState> {
    match s
    case StepPending => {StepRunning, StepSkipped}
    case StepRunning => {StepCompleted, StepFailed, StepRetrying, StepWaiting, StepSkipped}
    case StepCompleted => {}
    case StepFailed => {StepRetrying}
    case StepSkipped => {}
    case StepRetrying => {StepRunning, StepFailed}
    case StepWaiting => {StepRunning, StepFailed}
  }

  predicate IsTerminal(s: Status) {
    s == Completed || s == Cancelled || s == Failed
  }

  // The state machine as a value.
  datatype Machine = Machine(status: Status, steps: map<string, StepState>) {
    function StateOf(id: string): StepState {
      if id in steps then steps[id] else StepPending
    }

    predicate CanMove(to: Status) {
      to in NextStatuses(status)
    }

    predicate CanStep(id: string, to: StepState) {
      to in NextStepStates(StateOf(id))
    }

    function Move(to: Status): Machine {
      this.(status := to)
    }

    function Step(id: string, to: StepState): Machine {
      this.(steps := steps[id := to])
    }
  }

  const INITIAL := Machine(Pending, map[])

  // The table by target: everything that has not ended can be cancelled; only what is running can wait, retry, be
  // replanned, paused or completed; a pending or paused execution cannot fail.
  lemma {:induction false} StatusSources(s: Status)
    ensures Cancelled in NextStatuses(s) <==> !IsTerminal(s)
    ensures Running in NextStatuses(s) <==> !IsTerminal(s) && s != Running
    ensures Failed in NextStatuses(s) <==> !IsTerminal(s) && s != Pending && s != Paused
    ensures forall t :: t in {Waiting, Retrying, Replanning, Completed, Paused} ==>
      (t in NextStatuses(s) <==> s == Running)
    ensures Pending !in NextStatuses(s)
  {
  }

  lemma {:induction false} StepStateSources(s: StepState)
    ensures StepRunning in NextStepStates(s) <==> s in {StepPending, StepRetrying, StepWaiting}
    ensures StepFailed in NextStepStates(s) <==> s in {StepRunning, StepRetrying, StepWaiting}
    ensures StepRetrying in NextStepStates(s) <==> s in {StepRunning, StepFailed}
    ensures StepSkipped in NextStepStates(s) <==> s in {StepPending, StepRunning}
    ensures StepCompleted in NextStepStates(s) <==> s == StepRunning
    ensures StepWaiting in NextStepStates(s) <==> s == StepRunning
    ensures StepPending !in NextStepStates(s)
  {
  }

  // A path a step can take through the table.
  ghost predicate StepPath(p: seq<StepState>) {
    |p| > 0 && forall i :: 0 <= i < |p| - 1 ==> p[i + 1] in NextStepStates(p[i])
  }

  // A failed step can run again only through the retry path, and a completed one never can.
  lemma {:induction false} RerunNeedsRetry(p: seq<StepState>, i: nat)
    requires StepPath(p) && i < |p|
    ensures p[0] == StepCompleted ==> i == 0
    ensures p[0] == StepFailed && p[i] == StepRunning ==> i >= 2 && p[1] == StepRetrying
  {
    if i >= 1 {
      assert p[0 + 1] in NextStepStates(p[0]);
    }
  }

  class ExecutionStateMachine {
    var currentStatus: Status
    var stepStates: map<string, StepState>

    constructor ()
      ensures Value() == INITIAL
    {
      currentStatus, stepStates := Pending, map[];
    }

    function Value(): Machine
      reads this
    {
      Machine(currentStatus, stepStates)
    }

    // `ok` is false exactly where the source throws InvalidStateTransitionError.
    method Transition(to: Status) returns (ok: bool)
      modifies this
      ensures ok == old(Value()).CanMove(to)
      ensures Value() == if ok then old(Value()).Move(to) else old(Value())
    {
      ok := to in NextStatuses(currentStatus);
      if ok {
        currentStatus := to;
      }
    }

    method SetStepState(id: string, to: StepState) returns (ok: bool)
      modifies this
      ensures ok == old(Value()).CanStep(id, to)
      ensures Value() == if ok then old(Value()).Step(id, to) else old(Value())
    {
      var current := if id in stepStates then stepStates[id] else StepPending;
      ok := to in NextStepStates(current);
      if ok {
        stepStates := stepStates[id := to];
      }
    }
  }
}
