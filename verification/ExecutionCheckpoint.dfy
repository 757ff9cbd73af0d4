// Checkpoints and the validator that judges them.
module ExecutionCheckpoint {
  import opened ExecutionState
  import opened ExecutionHistory

  datatype Checkpoint = Checkpoint(
    number: nat,
    current: string,
    completed: seq<string>,
    remaining: seq<string>,
    status: Status,
    statistics: Statistics)

  // The plan's ids that are neither completed nor current.
  function Remaining(ids: seq<string>, completed: seq<string>, current: string): seq<string> {
    if ids == [] then []
    else
      var n := |ids| - 1;
      Remaining(ids[..n], completed, current)
      + if ids[n] !in completed && ids[n] != current then [ids[n]] else []
  }

  function InitialCheckpoint(number: nat, ids: seq<string>): Checkpoint
    requires ids != []
  {
    Checkpoint(number, ids[0], [], ids[1..], Pending, Statistics(0, 0, 0, 0, map[]))
  }

  datatype CheckpointError = MissingId | MissingStepId | CurrentAlreadyCompleted | CountMismatch

  // What the validator asks of a checkpoint that has an id.
  ghost predicate Accepted(k: Checkpoint) {
    k.current != "" && k.current !in k.completed && k.statistics.stepsCompleted == |k.completed|
  }

  method ValidateCheckpoint(id: string, k: Checkpoint) returns (errors: seq<CheckpointError>)
    ensures errors == [] <==> id != "" && Accepted(k)
    ensures MissingId in errors <==> id == ""
    ensures MissingStepId in errors <==> k.current == ""
    ensures CurrentAlreadyCompleted in errors <==> k.current in k.completed
    ensures CountMismatch in errors <==> k.statistics.stepsCompleted != |k.completed|
  {
    errors := [];
    if |id| == 0 {
      errors := errors + [MissingId];
    }
    if |k.current| == 0 {
      errors := errors + [MissingStepId];
    }
    if k.current in k.completed {
      errors := errors + [CurrentAlreadyCompleted];
    }
    if k.statistics.stepsCompleted != |k.completed| {
      errors := errors + [CountMismatch];
    }
  }

  lemma {:induction false} RemainingMembers(ids: seq<string>, completed: seq<string>, current: string)
    ensures forall x :: x in Remaining(ids, completed, current) <==> x in ids && x !in completed && x != current
  {
    if ids != [] {
      var n := |ids| - 1;
      RemainingMembers(ids[..n], completed, current);
      assert ids == ids[..n] + [ids[n]];
    }
  }

  // When the excluded ids are exactly a prefix of the list, what remains is the suffix.
  lemma {:induction false} RemainingSuffix(ids: seq<string>, completed: seq<string>, current: string, k: nat)
    requires k <= |ids|
    requires forall i :: 0 <= i < k ==> ids[i] in completed || ids[i] == current
    requires forall i :: k <= i < |ids| ==> ids[i] !in completed && ids[i] != current
    ensures Remaining(ids, completed, current) == ids[k..]
    decreases |ids| - k
  {
    if k == |ids| {
      NothingRemains(ids, completed, current);
    } else {
      var n := |ids| - 1;
      RemainingSuffix(ids[..n], completed, current, k);
      assert ids[k..] == ids[..n][k..] + [ids[n]];
    }
  }

  lemma {:induction false} NothingRemains(ids: seq<string>, completed: seq<string>, current: string)
    requires forall i :: 0 <= i < |ids| ==> ids[i] in completed || ids[i] == current
    ensures Remaining(ids, completed, current) == []
  {
    if ids != [] {
      NothingRemains(ids[..|ids| - 1], completed, current);
    }
  }
}
