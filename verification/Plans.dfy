// Plans as the planner produces them and the execution loop consumes them.
module Plans {
  import opened Basics

  datatype PlanStatus =
    PlanDraft | PlanValidated | PlanReady | PlanExecuting | PlanCompleted | PlanFailed | PlanCancelled

  datatype PlanStep = PlanStep(
    id: string,
    title: string,
    description: string,
    tool: Option<string>,
    dependsOn: seq<string>,
    expectedResult: string)

  datatype Plan = Plan(steps: seq<PlanStep>, status: PlanStatus)

  function Ids(steps: seq<PlanStep>): (ids: seq<string>)
    ensures |ids| == |steps|
    ensures forall i :: 0 <= i < |steps| ==> ids[i] == steps[i].id
  {
    Map(steps, (s: PlanStep) => s.id)
  }

  // Every dependency of a step names a step that comes earlier in the list.
  ghost predicate ForwardOrdered(steps: seq<PlanStep>) {
    forall i, d :: 0 <= i < |steps| && d in steps[i].dependsOn ==> d in Ids(steps)[..i]
  }
}
