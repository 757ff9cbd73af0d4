# A verified model of the agent kernel

This project models five parts of the repository in Dafny and proves what they promise, or exactly when they
keep the promise:

- **Execution loop** (`Execution*.dfy`). One run of the orchestrator is a function of what happens at each
  `await`: the environment's actions (pause, resume, cancel, abort), the executor's answer, and the planner's
  answer when replanning. A run consumes one tick per await; when the ticks run out it is suspended, so the runs
  over all tick sequences are all finite prefixes of real executions. `ExecutionRun` is that function;
  `ExecutionLoop` holds the mutable context, state machine, history and retry manager as classes, and its
  `Execute` is proved to do what the function says. The theorems (accounting, outcomes, pauses, checkpoints,
  termination, liveness, dependency order) are about the function. `ExecutionJournal` gives the grammar of the
  event log of every run, `ExecutionRecords` what its history and checkpoints record, entry by entry.
  `ExecutionEngine` puts validation and the engine's own step executor around it.
- **Knowledge graph and its writer** (`KnowledgeGraph`, `InMemoryGraphiti`, `GraphitiEdgeIds`,
  `GraphitiEventWriter`, `ExecutionStream`). The node and edge maps, both adjacency indexes, the change journal,
  the depth-bounded breadth-first search, the event handlers that write executions into the graph, and what the
  nodes read after any stream and after any run of the loop.
- **Dependency graphs** (`Graphs`, `PlanningValidator`, `ExecutionValidator`, `StartupManager`,
  `PlanningEngine`). Two depth-first cycle searches, a topological sort with guarded start and rollback, and the
  rule-based plan generator.
- **Kernel** (`HermesLifecycle`, `HermesModuleRegistry`, `Hermes`). The re-entrant lifecycle, the array and index
  registry, and the façade whose phase gates keep modules ordered. Handlers of the lifecycle really call
  `Transition` again; other callers may act between any two shutdowns of a drain.
- **Index and stream arithmetic** (`MemoryIndexer`, `ChatStreaming`, `MemoryRanking`, `MemoryPolicies`,
  `StableSorting`).

Every lemma is marked `{:induction false}`: its body is its whole proof, and none rests on an automatic
induction hypothesis.

## What the proofs found

Several promises hold only under a condition; each is stated as an equivalence or with a concrete counterexample.

- A checkpoint taken after a success is rejected by the checkpoint validator, because the current step is already
  listed as completed; those taken after a failure or for a new plan pass unless the id is empty
  (`ExecutionTrail.CheckpointVerdict`).
- While nobody has replanned, a checkpoint taken at a result splits the plan into completed, current and remaining
  steps exactly when no id behind it comes again (`ExecutionTrail.CheckpointTheorem`).
- A run over finitely many step ids fails to return or reject only by staying paused for ever
  (`ExecutionLiveness.LivenessTheorem`).
- `execute` rejects exactly when some step's answer finds the run paused and is either the last step's success or
  a failure that will not be retried, even one that would otherwise be replanned
  (`ExecutionPauses.RejectionTheorem`, with a concrete run in `ExecutionOutcomes.PauseOnLastStepRejects`).
- `maxDelayMs` does not bind the fixed strategy (`ExecutionRetry.DelayCap`).
- The loop ignores `dependsOn`; it respects a plan in every run exactly when the plan is listed in dependency
  order (`ExecutionDependencies.DependenciesRespectedIff`).
- The writer has no handler for a cancellation: the node of a cancelled run reads "running" for ever
  (`ExecutionStream.RunStatusRead`).
- The engine ignores the step executor it is given and never checks for repeated step ids: left alone, a run
  completes exactly when the ids are distinct (`ExecutionEngine.UndisturbedCompletesIff`).
- Wired to the planner as its documentation shows, the engine never gets a plan: it sends tools without
  descriptions, at least one of them gets a step, and the plan is refused (`PlanningEngine.BareToolsPlannableIff`,
  `ExecutionEngine.WiredPlannerRefuses`).
- A generated plan keeps to its step limit exactly when the limit is at least two or no tool is enabled
  (`PlanningEngine.StepLimitKeptIff`).
- Adding an edge under an id in use breaks the indexes (`KnowledgeGraph.AddEdgeAgreesIff`); the writer avoids that
  but leaves an edge out when a different one already has its id (`GraphitiEventWriter.WrittenIff`). That happens in
  some stream exactly when two execution ids are confusable: one, with a dash after it, begins with the other and
  `-achieves-goal-`, `-contains-step-` or `-produces-checkpoint-`, or, with a dash before it, ends with
  `-contains-exec-` and the other (`GraphitiEdgeIds.ClashIff`, `GraphitiEventWriter.TrustedIff`, with concrete
  streams in `GraphitiEventWriter.StepEdgeLost` and `GraphitiEventWriter.PlanEdgeLost`). Ids without dashes, or of
  one length, never are (`GraphitiEdgeIds.NotConfusable`).
- The registry alone does not keep modules ordered (`HermesModuleRegistry.RegisterOrderedIff`,
  `HermesModuleRegistry.RegistryAloneLosesOrder`); the façade does (`Hermes.Hermes.Valid`, kept by every method).
- Stopping before RUNNING, or while another stop is draining, fails the kernel; a drain in which a module threw
  still answers ok although the phase is FAILED, and one that runs to its end throws if anything called meanwhile
  has ended the kernel first (`Hermes.Hermes.BeginStop`, `Hermes.Hermes.Stop`).
- A startup stopped by an unmet dependency rolls back nothing, not even a started step that has a rollback
  (`StartupManager.UnmetRollsBackNothing`). If all startups work, it is stopped that way exactly when some
  dependency is no step or a step waits on itself (`StartupManager.StartupManager.Start`).
- Chunked search is exact precisely for texts of at most overlap + 1 characters (`MemoryIndexer.SearchExactIff`).
- Chunking a text ends precisely when the text is empty or fits into one chunk, or the overlap is smaller than the
  chunk (`MemoryIndexer.ChunkingEndsIff`).

## Model

| member | source | states |
|---|---|---|
| ExecutionState.RerunNeedsRetry | packages/hermes/src/execution/ExecutionState.ts:34-43 | along any path of the step table a completed step goes nowhere, and a failed one runs again only by way of retrying |
| ExecutionState.StatusSources | packages/hermes/src/execution/ExecutionState.ts:18-28 | which statuses each status can follow: whatever has not ended can be cancelled, only what runs can be paused, replanned or completed, and nothing pending or paused can fail |
| ExecutionState.StepStateSources | packages/hermes/src/execution/ExecutionState.ts:34-43 | which step states each step state can follow |
| ExecutionState.ExecutionStateMachine.Transition | packages/hermes/src/execution/ExecutionState.ts:67-76 | the status moves exactly when the table allows it; otherwise nothing changes |
| ExecutionState.ExecutionStateMachine.SetStepState | packages/hermes/src/execution/ExecutionState.ts:93-103 | a step's state moves exactly when the table allows it, other steps keep theirs |
| ExecutionRetry.SumAttemptsUpdate | packages/hermes/src/execution/ExecutionRetry.ts:119-125 | the total of the counters changes by exactly what one counter changes |
| ExecutionRetry.RetryManager.RecordAttempt | packages/hermes/src/execution/ExecutionRetry.ts:65-86 | counts one more attempt of this step only, stores its new state with the next delay, and answers its delay and whether the policy is exhausted |
| ExecutionRetry.RetryManager.GetTotalAttempts | packages/hermes/src/execution/ExecutionRetry.ts:119-125 | the loop over the counters computes their sum, in whatever order it visits them |
| ExecutionRetry.DelaysNeverDecrease | packages/hermes/src/execution/ExecutionPolicy.ts:101-108 | with multiplier at least one a later attempt never waits less than an earlier one |
| ExecutionRetry.DelayCap | packages/hermes/src/execution/ExecutionPolicy.ts:101-108 | all delays stay within maxDelayMs if and only if the strategy is not a fixed one with a larger base delay |
| ExecutionRetry.DelayGrowth | packages/hermes/src/execution/ExecutionPolicy.ts:101-108 | the first backoff delay is the smaller of baseDelayMs and maxDelayMs, each next one the previous times the multiplier until the cap is reached, where a multiplier of at least one keeps it; a fixed delay stays, and without retries there is none |
| ExecutionRetry.DelaySumBound | packages/hermes/src/execution/ExecutionPolicy.ts:101-108 | n delays under a cap add up to at most n times the cap |
| ExecutionHistory.History.StepCompleted | packages/hermes/src/execution/ExecutionHistory.ts:64-71 | logs the result and replaces the one kept for the step |
| ExecutionHistory.History.GetStatistics | packages/hermes/src/execution/ExecutionHistory.ts:126-141 | one pass over the latest results counts successes and the others, adds up the retry attempts they report and lists each step's duration |
| ExecutionHistory.TallyIs | packages/hermes/src/execution/ExecutionHistory.ts:126-141 | every step with a result counts once, as completed or as failed; the retry attempts are the sum and the durations those of the latest results |
| ExecutionCheckpoint.ValidateCheckpoint | packages/hermes/src/execution/ExecutionCheckpoint.ts:62-90 | which checkpoints are accepted, and which error each other one gets, the empty checkpoint id included |
| ExecutionCheckpoint.RemainingMembers | packages/hermes/src/execution/ExecutionLoop.ts:339-341 | the remaining ids are the plan's ids that are neither completed nor current |
| ExecutionCheckpoint.RemainingSuffix | packages/hermes/src/execution/ExecutionLoop.ts:339-341 | when the completed ids are the plan's first ones, what remains is the rest of the plan in order |
| ExecutionLoop.ExecutionContext.SetPlan | packages/hermes/src/execution/ExecutionContext.ts:86-94 | installs the plan, keeps the step index, adds an initial checkpoint for a non-empty plan |
| ExecutionLoop.ExecutionContext.NextStep | packages/hermes/src/execution/ExecutionContext.ts:120-124 | moves the index on and says whether a step is there |
| ExecutionLoop.ExecutionLoop.Pause | packages/hermes/src/execution/ExecutionLoop.ts:270-275 | pauses a running execution and no other |
| ExecutionLoop.ExecutionLoop.Resume | packages/hermes/src/execution/ExecutionLoop.ts:280-285 | resumes a paused execution and no other |
| ExecutionLoop.ExecutionLoop.Cancel | packages/hermes/src/execution/ExecutionLoop.ts:290-296 | cancels any execution that has not ended, announcing and logging it |
| ExecutionLoop.ExecutionLoop.WaitForResume | packages/hermes/src/execution/ExecutionLoop.ts:354-365 | polls through the environment's actions until the execution is not paused |
| ExecutionLoop.ExecutionLoop.RecordResult | packages/hermes/src/execution/ExecutionLoop.ts:133-144 | stores and logs the result, then takes the step checkpoint |
| ExecutionLoop.ExecutionLoop.SucceedStep | packages/hermes/src/execution/ExecutionLoop.ts:146-159 | the success branch refines its specification |
| ExecutionLoop.ExecutionLoop.RetryStep | packages/hermes/src/execution/ExecutionLoop.ts:173-197 | the retry branch refines its specification, including exhaustion and what happens while sleeping |
| ExecutionLoop.ExecutionLoop.ReplanStep | packages/hermes/src/execution/ExecutionLoop.ts:199-212 | the replanning branch refines its specification, including a planner that throws and a transition that is refused |
| ExecutionLoop.ExecutionLoop.FailStep | packages/hermes/src/execution/ExecutionLoop.ts:160-216 | the failure branch chooses retry, replanning or the end as specified; which failures those are is said by `ExecutionJournal.RetriedIff` and `ExecutionJournal.ReplannedIff` |
| ExecutionLoop.ExecutionLoop.ExecuteStep | packages/hermes/src/execution/ExecutionLoop.ts:302-327 | marking, announcing and calling one step, with everything that follows from the answer |
| ExecutionLoop.ExecutionLoop.RunSteps | packages/hermes/src/execution/ExecutionLoop.ts:111-217 | the while loop over mutable state reaches exactly the stage the recursive specification ends in |
| ExecutionLoop.ExecutionLoop.HandleFault | packages/hermes/src/execution/ExecutionLoop.ts:233-264 | the catch block, including the transition that can itself throw; what it makes of each ending is said by `ExecutionOutcomes.SettledAs` |
| ExecutionLoop.ExecutionLoop.Execute | packages/hermes/src/execution/ExecutionLoop.ts:95-265 | the whole imperative run refines the function that the theorems on outcomes, log and records are about |
| ExecutionAccounting.IterateStage | packages/hermes/src/execution/ExecutionLoop.ts:114-217 | one iteration keeps every step's books: runs, attempts, states, sleeps and results agree |
| ExecutionAccounting.LoopStage | packages/hermes/src/execution/ExecutionLoop.ts:114-217 | wherever the loop stops, the ledger balances |
| ExecutionTrail.BooksAtEveryHead | packages/hermes/src/execution/ExecutionLoop.ts:130-216 | at every loop head the index is the number of successes, and results = successes + recorded retry attempts + failures sent to replanning |
| ExecutionTrail.LedgerTheorem | packages/hermes/src/execution/ExecutionLoop.ts:95-265 | the balance at the end of every run, where at most the failure that ended it is unaccounted for, and only without a planner |
| ExecutionTrail.StepCheckpointAccepted | packages/hermes/src/execution/ExecutionLoop.ts:329-352 | at the moment it is taken, a step checkpoint has the run's status and passes the validator's checks exactly when the step failed and its id is not empty |
| ExecutionTrail.CheckpointTheorem | packages/hermes/src/execution/ExecutionLoop.ts:329-352 | in every checkpoint of every run, for any plans: it was taken for an offered plan or at a result; the map-based count equals the list and nothing is completed twice; the remaining ids avoid completed and current unless a plan begins with an id that comes again; without replanning the three parts are the plan's ids in order if and only if it is the plan's first checkpoint or no id behind it comes again |
| ExecutionTrail.CheckpointVerdict | packages/hermes/src/execution/ExecutionCheckpoint.ts:62-90 | the validator's verdict on every checkpoint of every run: one taken for a plan passes unless its first id is empty, one taken at a result if and only if the step failed and its id is not empty |
| ExecutionTrail.DistinctPlansSplit | packages/hermes/src/execution/ExecutionLoop.ts:329-352 | with distinct ids in every plan all checkpoints are sound, and without replanning each splits the plan in order |
| ExecutionTrail.CompletionTheorem | packages/hermes/src/execution/ExecutionLoop.ts:219-232 | for any plan and any replans: completed without replanning means the successes are the plan's ids in order; with it, at least as many successes as the last plan has steps |
| ExecutionOutcomes.SettleStatus | packages/hermes/src/execution/ExecutionLoop.ts:219-264 | how a run ends, and that it rejects if and only if the loop ends while paused without an abort |
| ExecutionOutcomes.OutcomeTheorem | packages/hermes/src/execution/ExecutionLoop.ts:95-265 | however the environment acts: a normal return is completed, failed or cancelled; an exception leaves the run paused and needs a pause; cancellation is announced exactly when it is the final status |
| ExecutionOutcomes.SettledAs | packages/hermes/src/execution/ExecutionLoop.ts:219-264 | every ending, case by case: the loop that falls through completes or stays cancelled; a fault while running or replanning fails the run and names the current step; a fault while cancelled, or an abort, cancels it; a fault while paused escapes |
| ExecutionOutcomes.CancelledOnlyIfStopped | packages/hermes/src/execution/ExecutionLoop.ts:233-252 | a run is cancelled only if its signal was aborted from the start or somebody cancelled or aborted it |
| ExecutionOutcomes.AbortedHeadCancels | packages/hermes/src/execution/ExecutionLoop.ts:114-117 | an abort seen at a loop head ends the run cancelled and announces it, with nothing in between |
| ExecutionOutcomes.AbortedFromTheStart | packages/hermes/src/execution/ExecutionLoop.ts:95-117 | with a signal aborted from the start the log is a start and a cancellation, and no step is touched |
| ExecutionOutcomes.FaultFails | packages/hermes/src/execution/ExecutionLoop.ts:253-263 | a run fails if and only if its loop ends by a fault, other than an abort, while neither paused nor cancelled; the failure is then announced for the current step |
| ExecutionOutcomes.ClosingEvent | packages/hermes/src/execution/ExecutionLoop.ts:219-263 | the last event of a completed run gives the successes, the plan's steps and the retries, that of a failed one the current step |
| ExecutionOutcomes.ActionsIs | packages/hermes/src/execution/ExecutionLoop.ts:270-296 | any batch of actions: an abort stays, a cancellation is final, and otherwise the last of pause and resume decides |
| ExecutionOutcomes.RefusesToRun | packages/hermes/src/execution/ExecutionLoop.ts:95-107 | without a plan `execute` rejects and changes nothing; on a run that is going or has ended it rejects and leaves one more start entry |
| ExecutionJournal.JournalTheorem | packages/hermes/src/execution/ExecutionLoop.ts:109-264 | the log of every run obeys the grammar: it begins with one start; a step starts only when none is open, with the number of steps completed as its index; completions, failures and checkpoints belong to the open step; progress follows its completion; each retry stands right behind a failure whose code the policy lists, with an attempt left, and no such failure goes without; numbers, delays, pauses and the last event agree with what precedes them |
| ExecutionJournal.LastWords | packages/hermes/src/execution/ExecutionLoop.ts:95-264 | at the end of every run a step is completed, or failed, exactly if that is the last thing logged about it; the run is completed, or failed, exactly if its last event says so |
| ExecutionJournal.RetriedIff | packages/hermes/src/execution/ExecutionLoop.ts:173-197 | a step that fails runs again if and only if the strategy is not none, its code is there and in retryOn, the retries announced so far and one more are fewer than maxAttempts, and the sleep ends |
| ExecutionJournal.ReplannedIff | packages/hermes/src/execution/ExecutionLoop.ts:199-212 | a step that fails is replanned if and only if the policy does not answer for it, there is a planner, the answer finds the run neither paused nor cancelled, and a plan comes before anybody cancels; the run goes on with that plan at the same index |
| ExecutionJournal.SucceededIs | packages/hermes/src/execution/ExecutionLoop.ts:146-159 | a success is stored with what the executor reported, completes the step, moves the index on by one, ends the log with completion and progress, and ends the loop exactly behind the last step |
| ExecutionRecords.RecordsTheorem | packages/hermes/src/execution/ExecutionLoop.ts:109-264 | in every run the history starts once, holds the results in order, has each replanning request right behind its failure and closes only with the status the run has; checkpoints are numbered, begin with the plan's, and when enabled there is one for each result, with what was known then, and each is announced |
| ExecutionOutcomes.CancelledStays | packages/hermes/src/execution/ExecutionLoop.ts:290-296 | a run cancelled at a loop head, though its steps go on, ends cancelled and without an exception |
| ExecutionOutcomes.PauseOnLastStepRejects | packages/hermes/src/execution/ExecutionState.ts:28-28 | pausing during the only step makes `execute` reject although the step succeeded |
| ExecutionPauses.AnswerEndsPaused | packages/hermes/src/execution/ExecutionLoop.ts:130-216 | once a step has answered, the rest of the iteration leaves the loop with the run paused if and only if the run is paused then and the answer is the last success or a failure that will not be retried |
| ExecutionPauses.IterateEndsPaused | packages/hermes/src/execution/ExecutionLoop.ts:114-217 | the same for a whole iteration, from the state and the ticks at its head |
| ExecutionPauses.RejectionTheorem | packages/hermes/src/execution/ExecutionLoop.ts:95-265 | a run rejects if and only if at one of its loop heads a step is run whose answer arrives while the run is paused and leaves nothing to go on with |
| ExecutionTermination.TerminationTheorem | packages/hermes/src/execution/ExecutionLoop.ts:114-217 | without pauses and with step ids from a finite set, every run ends, however often it replans |
| ExecutionLiveness.WorkTheorem | packages/hermes/src/execution/ExecutionLoop.ts:114-217 | however often a run is paused, it comes through at most twice as many awaits besides those that wait for a resume as there are ids times max(1, maxAttempts) |
| ExecutionLiveness.LivenessTheorem | packages/hermes/src/execution/ExecutionLoop.ts:95-265 | whatever happens at its awaits, a run over ids from a finite set returns or rejects, unless from some await on it stays paused for ever |
| ExecutionLiveness.LoopExtends | packages/hermes/src/execution/ExecutionLoop.ts:111-217 | what happens at later awaits changes nothing about a loop that has ended |
| ExecutionTermination.CallBoundTheorem | packages/hermes/src/execution/ExecutionRetry.ts:51-86 | each step is handed to the executor at most max(1, maxAttempts) times, all together at most that times the number of ids, and none succeeds twice |
| ExecutionTermination.SleepTheorem | packages/hermes/src/execution/ExecutionPolicy.ts:101-108 | the delays slept for one step add up to at most (maxAttempts - 1) * maxDelayMs |
| ExecutionDependencies.ForwardPlanRespected | packages/hermes/src/execution/ExecutionLoop.ts:125-159 | a plan listed in dependency order never starts a step before its dependencies have succeeded, unless it is replanned |
| ExecutionDependencies.BackwardPlanViolates | packages/hermes/src/execution/ExecutionLoop.ts:125-159 | any step listed before one of its dependencies is started too early by some run |
| ExecutionDependencies.DependenciesRespectedIff | packages/hermes/src/execution/ExecutionLoop.ts:114-159 | both directions together: all runs respect the dependencies if and only if the plan is in order |
| ExecutionStream.RunWritesTidyGraph | packages/hermes/src/execution/ExecutionLoop.ts:109-264 | the events of any run, under any execution id, written into an empty graph, leave indexes that agree, no edge without its ends, and every edge of the run: to its goal, from its plan, to each started step and to each checkpoint |
| ExecutionStream.RunStatusRead | packages/hermes/src/execution/ExecutionLoop.ts:109-264 | written into an empty graph, a completed run reads "completed", a failed one "failed", and any other one, also a cancelled one, "running" |
| ExecutionStream.StepStatusRead | packages/hermes/src/execution/ExecutionLoop.ts:109-264 | a started step's node reads "completed", or "failed", exactly if that is the step's state in the run |
| ExecutionStream.RunEndRead | packages/hermes/src/execution/ExecutionLoop.ts:219-263 | a completed run's node reads its successes, its plan's steps and its retries, a failed one's the step it failed at |
| ExecutionStream.CompletionRead | packages/hermes/src/graphiti/GraphitiEventWriter.ts:116-125 | the completion of a run leaves its three counts, unmixed, on the run's node |
| ExecutionStream.FailureRead | packages/hermes/src/graphiti/GraphitiEventWriter.ts:164-172 | a failure leaves its code, or that there is none, and its message on the step's node |
| ExecutionStream.RetryRead | packages/hermes/src/graphiti/GraphitiEventWriter.ts:174-182 | a retry leaves its number and its delay there |
| ExecutionStream.StartRead | packages/hermes/src/graphiti/GraphitiEventWriter.ts:97-109 | the start of a run leaves the size of its plan on its node |
| ExecutionStream.StepStartRead | packages/hermes/src/graphiti/GraphitiEventWriter.ts:138-154 | a step's start leaves its index on its node |
| ExecutionStream.CheckpointRead | packages/hermes/src/graphiti/GraphitiEventWriter.ts:192-211 | a checkpoint's node reads how many steps were completed |
| ExecutionEngine.EngineTheorem | packages/hermes/src/execution/ExecutionEngine.ts:193-214 | with the engine's executor the results are those of the plan's first steps, once each; nothing is retried, and only a repeated id can fail the run |
| ExecutionEngine.UndisturbedCompletesIff | packages/hermes/src/execution/ExecutionEngine.ts:193-214 | left alone, a run ends, and completes if and only if no two steps share an id |
| ExecutionEngine.GeneratedPlanCompletes | packages/hermes/src/execution/ExecutionEngine.ts:193-214 | every plan the rule-based planner makes runs to completion in order when left alone |
| ExecutionEngine.WiredPlannerRefuses | packages/hermes/src/execution/ExecutionEngine.ts:140-159 | the request the engine sends to the rule-based planner is refused for every goal and tool list |
| ExecutionEngine.ExecutionEngine.BuildResult | packages/hermes/src/execution/ExecutionEngine.ts:318-333 | the report agrees with the context in status, results, counts and error |
| ExecutionEngine.ExecutionEngine.Execute | packages/hermes/src/execution/ExecutionEngine.ts:119-215 | a planning function that throws makes it reject; no plan and invalid plans, with exactly the faults there are, are reported without running; otherwise the report is on the run the environment makes of the plan, faithful to the plan, and success has its exact condition |
| KnowledgeGraph.AddEdgeAgreesIff | packages/graphiti/src/InMemoryGraphiti.ts:100-117 | adding an edge keeps both indexes in agreement if and only if its id is unused |
| KnowledgeGraph.AddNodeEffect | packages/graphiti/src/InMemoryGraphiti.ts:43-55 | one node is stored and journaled, whatever had its id, and nothing else changes |
| KnowledgeGraph.UpdateNodeEffect | packages/graphiti/src/InMemoryGraphiti.ts:61-74 | each updated key reads the new value, every other key and every other node what it read before; an unknown node changes nothing |
| KnowledgeGraph.AddEdgeEffect | packages/graphiti/src/InMemoryGraphiti.ts:100-117 | the edge is stored, and its id comes last in its source's and its target's list and in no other |
| KnowledgeGraph.RemoveEdgeAgrees | packages/graphiti/src/InMemoryGraphiti.ts:123-145 | removing an edge keeps the agreement |
| KnowledgeGraph.RemoveEdgeKeepsOrder | packages/graphiti/src/InMemoryGraphiti.ts:123-145 | every list loses that id and keeps the order of the others |
| KnowledgeGraph.RemoveEdgesEffect | packages/graphiti/src/InMemoryGraphiti.ts:80-85 | removing a list of ids removes exactly those edges and journals each live one once |
| KnowledgeGraph.RemoveNodeEffect | packages/graphiti/src/InMemoryGraphiti.ts:76-94 | removing a node removes exactly the edges at it and both its lists |
| KnowledgeGraph.RemoveNodeJournal | packages/graphiti/src/InMemoryGraphiti.ts:76-94 | the journal gets one removal for each incident edge, self-loops included once, then the node's |
| KnowledgeGraph.MutationsAgree | packages/graphiti/src/InMemoryGraphiti.ts:43-145 | any sequence of mutations that adds edges under unused ids keeps each list equal to the live edges at its node, once each |
| KnowledgeGraph.JournalReplays | packages/graphiti/src/InMemoryGraphiti.ts:43-145 | replaying the journal gives back the live node and edge ids |
| InMemoryGraphiti.InMemoryGraphiti.AddNode | packages/graphiti/src/InMemoryGraphiti.ts:43-55 | the mutable graph refines the value-level one |
| InMemoryGraphiti.InMemoryGraphiti.UpdateNode | packages/graphiti/src/InMemoryGraphiti.ts:61-74 | properties are merged into an existing node and nothing else changes |
| InMemoryGraphiti.InMemoryGraphiti.RemoveNode | packages/graphiti/src/InMemoryGraphiti.ts:76-94 | the loop that removes edges while the lists shrink refines the value-level removal |
| InMemoryGraphiti.InMemoryGraphiti.AddEdge | packages/graphiti/src/InMemoryGraphiti.ts:100-117 | both lists grow by the new id, also when the id was in use |
| InMemoryGraphiti.InMemoryGraphiti.RemoveEdge | packages/graphiti/src/InMemoryGraphiti.ts:123-145 | the splices refine the value-level removal |
| InMemoryGraphiti.InMemoryGraphiti.GetEdges | packages/graphiti/src/InMemoryGraphiti.ts:147-167 | the live edges behind the listed ids, in order, for each direction |
| InMemoryGraphiti.EdgesAt | packages/graphiti/src/InMemoryGraphiti.ts:147-167 | what is found at a node is exactly the stored edges that leave it, or arrive at it |
| InMemoryGraphiti.ListsLive | packages/graphiti/src/InMemoryGraphiti.ts:147-167 | nothing listed is dead, and the edges come in the order of the lists |
| InMemoryGraphiti.InMemoryGraphiti.FindPath | packages/graphiti/src/InMemoryGraphiti.ts:213-252 | the search terminates; what it returns is a chain of stored edges no longer than any other; for distinct ends it finds one exactly when one of at most maxDepth edges exists |
| GraphitiEventWriter.StreamTidy | packages/hermes/src/graphiti/GraphitiEventWriter.ts:71-211 | every stream that starts executions before their steps keeps the indexes in agreement and every edge anchored at both ends |
| GraphitiEventWriter.EarlyStepDangles | packages/hermes/src/graphiti/GraphitiEventWriter.ts:138-154 | a step reported before its execution leaves an edge from a missing node |
| GraphitiEventWriter.OneEdgePerLink | packages/hermes/src/graphiti/GraphitiEventWriter.ts:217-237 | however often an edge is asked for, there is at most one of its kind between its nodes |
| GraphitiEventWriter.EnsureLinkIff | packages/hermes/src/graphiti/GraphitiEventWriter.ts:217-237 | ensuring an edge leaves one of its kind between its nodes if and only if the id is free or already its own |
| GraphitiEventWriter.WrittenIff | packages/hermes/src/graphiti/GraphitiEventWriter.ts:75-211 | each goal, plan, step and checkpoint edge an event asks for is in the graph afterwards if and only if its id was free or its own |
| GraphitiEventWriter.NodesRead | packages/hermes/src/graphiti/GraphitiEventWriter.ts:71-211 | after any stream the node of an execution, a step or a checkpoint is there exactly if it was made, and each property reads what was last said about it since it was made |
| GraphitiEventWriter.NodeLabels | packages/hermes/src/graphiti/GraphitiEventWriter.ts:71-211 | the kinds and captions of these nodes, with ids cut to eight characters |
| GraphitiEventWriter.FirstMention | packages/hermes/src/graphiti/GraphitiEventWriter.ts:76-94 | a goal's or a plan's node says what the first event that mentions it says, whatever later ones say |
| GraphitiEventWriter.MentionedStays | packages/hermes/src/graphiti/GraphitiEventWriter.ts:71-211 | no event changes the node of a goal or a plan that is there |
| GraphitiEdgeIds.NotConfusable | packages/hermes/src/graphiti/GraphitiEventWriter.ts:114-115 | ids without dashes, and ids of one length, are never confusable |
| GraphitiEventWriter.TrustedIff | packages/hermes/src/graphiti/GraphitiEventWriter.ts:71-237 | every well-ordered stream of a set of executions gets every edge it asks for if and only if no two of their ids are confusable |
| GraphitiEventWriter.LaterEdgeLost | packages/hermes/src/graphiti/GraphitiEventWriter.ts:217-237 | for any two different edges with one id there is a stream from the empty graph that ends with the first and without the second |
| GraphitiEventWriter.StepEdgeLost | packages/hermes/src/graphiti/GraphitiEventWriter.ts:138-154 | a concrete stream of two executions in which the second one's step gets no edge |
| GraphitiEventWriter.PlanEdgeLost | packages/hermes/src/graphiti/GraphitiEventWriter.ts:114-115 | a concrete stream of two executions in which the second one gets no edge from its plan |
| GraphitiEdgeIds.ClashIff | packages/hermes/src/graphiti/GraphitiEventWriter.ts:114-115 | two executions have different edges with one id if and only if one id, with a dash after it, begins with the other and an edge kind, or, with a dash before it, ends with `-contains-exec-` and the other |
| GraphitiEventWriter.GraphitiEventWriter.HandleEvent | packages/hermes/src/graphiti/GraphitiEventWriter.ts:33-66 | each handler does to the mutable graph what the value-level writer does; what that leaves on the nodes is said by `GraphitiEventWriter.NodesRead` |
| Graphs.TopoOrderedAcyclic | packages/llm/src/planning/PlanningValidator.ts:104-112 | a finishing order of all nodes rules out every cycle |
| Graphs.LastEntryWins | packages/llm/src/planning/PlanningValidator.ts:67-71 | of several entries for one id the graph has the last |
| PlanningValidator.CycleSearch.Dfs | packages/llm/src/planning/PlanningValidator.ts:77-102 | the recursive search keeps stack, path and finished nodes consistent and restores its path |
| PlanningValidator.ValidateNoCycles | packages/llm/src/planning/PlanningValidator.ts:65-113 | no errors if and only if the dependency graph is acyclic, and every reported cycle is one |
| PlanningValidator.ValidateNoDuplicateIds | packages/llm/src/planning/PlanningValidator.ts:34-44 | no errors if and only if the ids are distinct; the ids reported are exactly those that occur twice, once for each repetition |
| PlanningValidator.ValidateDependenciesExist | packages/llm/src/planning/PlanningValidator.ts:49-60 | no errors if and only if every dependency names a step, and exactly the unknown ones are reported |
| PlanningValidator.ValidateToolsExist | packages/llm/src/planning/PlanningValidator.ts:118-130 | no errors if and only if every named tool is available, and exactly the others are reported |
| PlanningValidator.ValidateStepFields | packages/llm/src/planning/PlanningValidator.ts:145-162 | no errors if and only if every required field is filled, and exactly the empty ones are reported |
| PlanningValidator.ValidatePlan | packages/llm/src/planning/PlanningValidator.ts:167-184 | valid if and only if the plan is well formed as a whole; everything wrong is reported and nothing else, but for cycles, of which one is enough |
| PlanningValidator.AdjacencyDistinct | packages/llm/src/planning/PlanningValidator.ts:67-71 | with distinct ids the graph searched is the plan's own |
| ExecutionValidator.ValidatePlanForExecution | packages/hermes/src/execution/ExecutionValidator.ts:28-50 | accepts exactly non-empty plans in the right status whose dependencies exist, and reports exactly what is wrong; cycles are not looked for |
| ExecutionValidator.OrderSearch.HasCycle | packages/hermes/src/execution/ExecutionValidator.ts:112-126 | the early-exit search either exhibits a cycle or finishes the node and all it depends on |
| ExecutionValidator.ValidateStepOrdering | packages/hermes/src/execution/ExecutionValidator.ts:92-136 | accepts exactly when all dependencies are listed and the listed steps' graph is acyclic; reports exactly the unlisted dependencies, then at most one cycle, and that only if there is one |
| ExecutionValidator.SameVerdict | packages/hermes/src/execution/ExecutionValidator.ts:92-136 | on a plan's graph that is what the planner's two validators accept together |
| StartupManager.TopologicalSort.Visit | packages/runtime/src/StartupManager.ts:23-33 | the post-order visit keeps every finished step behind its dependencies whenever there is no cycle |
| StartupManager.Sort | packages/runtime/src/StartupManager.ts:18-38 | every named step once, in dependency order if there is one; steps listed in order stay as they are |
| StartupManager.RunVerdict | packages/runtime/src/StartupManager.ts:89-132 | the guarded loop runs to the end if and only if the configuration can start |
| StartupManager.UnmetVerdict | packages/runtime/src/StartupManager.ts:89-105 | with known dependencies and no cycle no step is ever stopped by a dependency; without a cycle, what stops one is no step at all |
| StartupManager.StartupManager.Start | packages/runtime/src/StartupManager.ts:74-155 | running if and only if every dependency is a step, nothing waits on itself and every startup works; never a step before its dependencies; a failed startup rolls back exactly what has started; if all startups work, stopped by a dependency if and only if one is unknown or a step waits on itself |
| StartupManager.UnmetRollsBackNothing | packages/runtime/src/StartupManager.ts:89-105 | a configuration in which a started step that has a rollback is left running without it |
| StartupManager.StartupManager.RemoveStep | packages/runtime/src/StartupManager.ts:69-72 | drops the first step of that name and no other |
| StartupManager.RollBack | packages/runtime/src/StartupManager.ts:112-126 | calls the rollbacks of the started steps, last started first |
| StartupManager.RollbackMembers | packages/runtime/src/StartupManager.ts:112-126 | the steps rolled back are exactly the started ones that have a rollback |
| StartupManager.RollbackDependentsFirst | packages/runtime/src/StartupManager.ts:112-126 | dependents are rolled back before what they depend on |
| StartupManager.DependenciesDistinct | packages/runtime/src/StartupManager.ts:19-19 | with distinct names the graph sorted is what the steps declare |
| PlanningEngine.PlanSteps | packages/llm/src/planning/PlanningEngine.ts:340-402 | the loop with its step limit builds the specified plan |
| PlanningEngine.PlannedChain | packages/llm/src/planning/PlanningEngine.ts:340-402 | steps are numbered in order and each waits for the one before |
| PlanningEngine.ChainSound | packages/llm/src/planning/PlanningEngine.ts:340-402 | such a plan has distinct ids, known dependencies, no cycle, and lists dependencies first |
| PlanningEngine.PlanCallsTools | packages/llm/src/planning/PlanningEngine.ts:358-400 | the k-th enabled tool is called by step 2 + k, with its own title, description and expected result, as long as the limit leaves room; no other step calls a tool |
| PlanningEngine.JoinedIs | packages/llm/src/planning/PlanningEngine.ts:358-372 | a list of tool names is spelled with a comma and a space between any two of them |
| PlanningEngine.GeneratedWellFormedIff | packages/llm/src/planning/PlanningEngine.ts:297-323 | a generated plan passes the validator if and only if every tool that got a step has a description |
| PlanningEngine.GenerateDependencies | packages/llm/src/planning/PlanningStrategy.ts:49-59 | consecutive pairs for the sequential strategy, none for the others; on a generated plan they cover what the steps declare |
| PlanningEngine.GeneratePlan | packages/llm/src/planning/PlanningEngine.ts:297-323 | at most max(2, maxSteps) steps, within the limit under the exact condition, the structure the validators ask for, a step for each enabled tool in order while there is room, and the dependencies the strategy declares |
| PlanningEngine.MakePlan | packages/llm/src/planning/PlanningEngine.ts:84-231 | which requests get a plan and what each other one is refused for first; such a plan passes both validators, calls the enabled tools under the requested limit, fifty by default, and names the strategy asked for |
| PlanningEngine.TrimmedAway | packages/llm/src/planning/PlanningEngine.ts:274-287 | trimming leaves nothing of a goal exactly when it is all white space |
| PlanningEngine.BareToolsPlannableIff | packages/hermes/src/execution/ExecutionEngine.ts:145-152 | tools without descriptions get a plan if and only if a limit of one or two steps and no unknown strategy is asked for |
| PlanningEngine.StepLimitKeptIff | packages/llm/src/planning/PlanningEngine.ts:340-402 | a plan keeps to its step limit if and only if the limit is at least two or no tool is enabled |
| PlanningEngine.GeneratedPlanRespected | packages/llm/src/planning/PlanningEngine.ts:340-402 | run by the loop without replanning, no step of a generated plan starts before its dependencies have succeeded |
| HermesLifecycle.DrainTheorem | packages/hermes/src/HermesLifecycle.ts:134-152 | the drain fires one contiguous legal path and rests with an empty queue or in a terminal phase |
| HermesLifecycle.PathIsShort | packages/hermes/src/HermesLifecycle.ts:43-53 | no legal path has more than four transitions |
| HermesLifecycle.DrainFollows | packages/hermes/src/HermesLifecycle.ts:122-152 | queueing ends where following all requests in the order they were made, skipping the illegal ones, ends |
| HermesLifecycle.RequestsAre | packages/hermes/src/HermesLifecycle.ts:122-152 | those requests are the ones waiting and everything the handlers ask for at the firings, but for the last one if it ends the kernel |
| HermesLifecycle.PhaseSources | packages/hermes/src/HermesLifecycle.ts:43-53 | every phase that has not ended can fail; every other phase follows one phase only |
| HermesLifecycle.HermesLifecycle.Transition | packages/hermes/src/HermesLifecycle.ts:113-152 | a re-entrant call only queues; an outer call ends as the drain specifies, terminates, and keeps the whole history one legal path |
| HermesLifecycle.HermesLifecycle.Fire | packages/hermes/src/HermesLifecycle.ts:80-90 | handlers run with no other firing in progress, whatever they ask for |
| HermesModuleRegistry.RegisterOrderedIff | packages/hermes/src/HermesModuleRegistry.ts:130-176 | an accepted module keeps the order if and only if no earlier record still waits for its name |
| HermesModuleRegistry.RefusalIs | packages/hermes/src/HermesModuleRegistry.ts:130-176 | a spec is accepted if and only if its name is not empty and not taken, both handles exist, it does not depend on itself and all it depends on is registered; each error has its own condition, in order, and the missing names are exactly the unregistered ones |
| HermesModuleRegistry.RegistryAloneLosesOrder | packages/hermes/src/HermesModuleRegistry.ts:130-209 | removing and re-registering a dependency puts it behind its dependent |
| HermesModuleRegistry.UnregisterKeepsOrder | packages/hermes/src/HermesModuleRegistry.ts:178-209 | removal keeps the order and marks every record that loses a dependency |
| HermesModuleRegistry.WithoutLeaves | packages/hermes/src/HermesModuleRegistry.ts:178-209 | removal takes out the record of that name alone; the others keep their place and their health, but for those that depended on it, which are degraded |
| HermesModuleRegistry.HermesModuleRegistry.RegisterModule | packages/hermes/src/HermesModuleRegistry.ts:130-176 | accepts exactly the admissible specs and refuses each other one for the first thing wrong with it; index and list stay inverse to each other |
| HermesModuleRegistry.HermesModuleRegistry.UnregisterModule | packages/hermes/src/HermesModuleRegistry.ts:178-209 | drops the record of that name, marks those that depended on it, leaves the others in order and as they were, and rebuilds the index |
| HermesModuleRegistry.HermesModuleRegistry.Reindex | packages/hermes/src/HermesModuleRegistry.ts:191-194 | the loop moves every later record's entry up by one |
| HermesModuleRegistry.HermesModuleRegistry.Clear | packages/hermes/src/HermesModuleRegistry.ts:238-241 | empties both |
| Hermes.DrainDependentsFirst | packages/hermes/src/Hermes.ts:217-234 | the drain of an ordered registry shuts dependents down before their dependencies |
| Hermes.BudgetFits | packages/hermes/src/Hermes.ts:209-214 | the per-module deadlines add up to at most the configured time, and one millisecond more each would not fit |
| Hermes.ReversedDrains | packages/hermes/src/Hermes.ts:208-234 | calling the ordered registry backwards with equal deadlines shuts each module down once, dependents first, within the configured time |
| Hermes.Hermes.Start | packages/hermes/src/Hermes.ts:250-285 | asks for STARTING and nothing more |
| Hermes.Hermes.RegisterModule | packages/hermes/src/Hermes.ts:335-383 | accepts exactly the admissible specs, and only in STARTING; keeps the order and completeness of the registry; refusing a required module fails the kernel |
| Hermes.RegisterInOrder | packages/hermes/src/Hermes.ts:335-383 | modules listed in dependency order are all accepted in STARTING, one after the other, and nothing else changes |
| Hermes.Hermes.UnregisterModule | packages/hermes/src/Hermes.ts:385-405 | only in RUNNING or STOPPING; drops that module alone, marks its dependents and keeps the order |
| Hermes.Hermes.BeginStop | packages/hermes/src/Hermes.ts:287-317 | only RUNNING leads to a drain; any earlier stop, or a second one, fails the kernel |
| Hermes.Hermes.Interfere | packages/hermes/src/Hermes.ts:221-230 | other callers' calls take effect one after the other while the drain waits, the kernel's invariant stays, and no second drain begins |
| Hermes.Hermes.DrainOne | packages/hermes/src/Hermes.ts:217-234 | one module is called with its deadline while the others' calls take effect |
| Hermes.StoppingCalls | packages/hermes/src/Hermes.ts:221-230 | while it stops the kernel takes no modules; what is unregistered is gone; and the first other stop, refused required module or terminal transition ends it |
| Hermes.Hermes.DrainModules | packages/hermes/src/Hermes.ts:208-245 | each module registered when the drain began is called once, latest first, with its share of the time; then the drain ends the kernel unless a call made meanwhile has |
| Hermes.Hermes.Stop | packages/hermes/src/Hermes.ts:287-323 | a stop while running calls each module once, dependents first, and the deadlines add up to at most the configured time; it always leaves the kernel ended, as the first ending call made meanwhile or else the modules' shutdowns decide, and answers ok, even when a module threw, exactly if no such call came first; what every other stop answers |
| MemoryIndexer.ChunksRebuildContent | packages/memory/src/MemoryIndexer.ts:115-150 | the first chunk and each later chunk without its overlap spell the content |
| MemoryIndexer.SearchFindsShortTexts | packages/memory/src/MemoryIndexer.ts:102-113 | for texts of at most overlap + 1 characters, and for all texts in records of one chunk, some chunk matches exactly when the content does |
| MemoryIndexer.SearchExactIff | packages/memory/src/MemoryIndexer.ts:102-150 | and that bound is sharp |
| MemoryIndexer.ChunkingEndsIff | packages/memory/src/MemoryIndexer.ts:115-150 | the loop ends if and only if the text is empty or fits into one chunk, or the overlap is smaller than the chunk, and then its result is the specified windows |
| MemoryIndexer.MemoryIndexer.ChunkContent | packages/memory/src/MemoryIndexer.ts:115-150 | whenever chunking ends, the loop produces the specified windows, numbered, with the record's metadata, and its embedding on a single chunk only |
| MemoryIndexer.ChunkIdInjective | packages/memory/src/MemoryIndexer.ts:117-144 | a chunk's id determines its record and its number, whatever colons the record's id contains |
| MemoryIndexer.ChunkFields | packages/memory/src/MemoryIndexer.ts:117-150 | each chunk carries its record's id and metadata, its number and its window, and the embedding only if the record fits into one chunk |
| MemoryIndexer.PutIs | packages/memory/src/MemoryIndexer.ts:47-58 | a new record comes last; a known one takes the place of the old, and all others stay |
| MemoryIndexer.DeleteIs | packages/memory/src/MemoryIndexer.ts:70-72 | what stays is the other records in order |
| MemoryIndexer.StoredDistinct | packages/memory/src/MemoryIndexer.ts:47-58 | no chunk is stored twice |
| MemoryIndexer.MemoryIndexer.Index | packages/memory/src/MemoryIndexer.ts:47-58 | stores a record's chunks, in the place of what was there for its id or else at the end, and changes nothing else |
| MemoryIndexer.MemoryIndexer.Remove | packages/memory/src/MemoryIndexer.ts:70-72 | forgets one record and keeps the order of the others |
| MemoryIndexer.MemoryIndexer.SearchChunks | packages/memory/src/MemoryIndexer.ts:102-113 | returns exactly the stored chunks that match, each once and in stored order |
| ChatStreaming.CollectDeltas | packages/llm/src/streaming.ts:18-36 | the nested loops compute the merge of all fragments |
| ChatStreaming.CollectConcat | packages/llm/src/streaming.ts:18-36 | collecting two streams together is merging their collections |
| ChatStreaming.CollectTheorem | packages/llm/src/streaming.ts:18-36 | content and each call's arguments are the in-order concatenation of their fragments, and the last id and name win |
| ChatStreaming.AssembleIs | packages/llm/src/streaming.ts:18-36 | a call has the id and the name of the last delta of its index that carries one, and all its arguments in order |
| ChatStreaming.CuttingInvisible | packages/llm/src/streaming.ts:18-36 | after any number of recuts - a chunk sent as two, one fragment's arguments sent as two anywhere in the stream, neighbouring deltas of different calls swapped, or any of these undone - the stream collects the same |
| ChatStreaming.EditKeeps | packages/llm/src/streaming.ts:18-36 | each single such recut, anywhere in a stream, changes nothing |
| ChatStreaming.InterleavingInvisible | packages/llm/src/streaming.ts:18-36 | streams with the same text and the same deltas for each index, in the same order, collect the same however the indices interleave |
| ChatStreaming.AssembleCalls | packages/llm/src/streaming.ts:67-81 | one call for each index in strictly increasing order, unless one lacks an id or a name |
| ChatStreaming.Accumulate | packages/llm/src/streaming.ts:38-98 | which streams are refused, and every field of the response to the others: the first chunk names it, the last ends it, the text is joined, and the calls are read off the deltas in index order |
| StableSorting.SortTheorem | packages/memory/src/MemoryPolicies.ts:136-144 | sorting permutes and orders |
| StableSorting.SortStable | packages/memory/src/MemoryPolicies.ts:136-144 | equal keys keep their order |
| MemoryPolicies.EvictionSparesTheBest | packages/memory/src/MemoryPolicies.ts:127-145 | no pinned record is evicted, and every evicted one is less important than each unpinned record that stays, or as important and not newer |
| MemoryPolicies.CandidatesInOrder | packages/memory/src/MemoryPolicies.ts:127-145 | the candidates come least important first, then oldest first, as many as asked for if there are as many unpinned records |
| MemoryPolicies.FirstOfEquals | packages/memory/src/MemoryPolicies.ts:136-144 | of equally important records of one age the first ones given go |
| MemoryPolicies.NothingEvicted | packages/memory/src/MemoryPolicies.ts:116-135 | without a limit, or with a count of zero or less, nothing is evicted |
| MemoryPolicies.EvictionMeetsLimit | packages/memory/src/MemoryPolicies.ts:116-145 | evicting the calculated count leaves the limit or the pinned records, whichever is more |
| MemoryRanking.CauchySchwarz | packages/memory/src/MemoryRanking.ts:150-159 | the squared dot product is at most the product of the squared lengths |
| MemoryRanking.CosineSimilarity | packages/memory/src/MemoryRanking.ts:144-162 | mismatched lengths are refused; the loop's quotient lies between -1 and 1 |
| MemoryRanking.RankTheorem | packages/memory/src/MemoryRanking.ts:131-134 | the ranking holds as many of the scores at or above the threshold as the limit allows, none more often than it was scored, in falling order, and none left out is better |
| MemoryRanking.RankStable | packages/memory/src/MemoryRanking.ts:131-134 | of equal scores the first ones given are kept, in their order |
| MemoryRanking.Deduplicate | packages/memory/src/MemoryRanking.ts:167-177 | one score for each record id, the highest there is, in falling order |

## Left out

- ExecutionEngine.ExecutionEngine.Execute: memory retrieval, whose answer the engine drops, is not modelled, and its own executor's durations are taken as zero.
- Clocks, durations, random ids, log output, tracing and metrics: opaque or absent. Step results carry no data, and durations and retry counts are what the executor reports.
- Timers and `Promise.race`: what happens while the code waits is the environment's choice; the startup timeout and the per-module drain timeout are left out (a timed-out module counts as one that threw).
- The executor is taken to answer with the step's own id and not to touch the context; the context starts pending and fresh.
- ExecutionTermination.TerminationTheorem: excludes pauses, since a run may stay paused for ever; `ExecutionLiveness` has the statements with them.
- ExecutionPauses.RejectionTheorem: like every theorem about runs, it takes it that nobody acts between awaits. An event handler is called inside `emit` (ExecutionLoop.ts:385-392) and could: one that pauses on the last StepCompleted makes `execute` reject although the answer arrived unpaused.
- ExecutionTrail.StepCheckpointAccepted: a checkpoint's `stepResults`, a live reference to the context's array, is not modelled.
- ExecutionHistory.History.GetStatistics: the total duration, a difference of two clock readings, is not modelled.
- Handlers that change the graph or the registry while it notifies them, and `HermesPluginLoader` and `clear` as ways around the kernel's façade.
- HermesLifecycle.HermesLifecycle.Transition: phases outside the type and handlers that subscribe while being fired are not modelled.
- Graph queries, text search, statistics and the limit of `getChanges`.
- GraphitiEventWriter.GraphitiEventWriter.HandleEvent: time stamps, and the properties and weights of edges, are not modelled.
- PlanningEngine.MakePlan: only the three built-in strategies; goal parsing, complexity, risk, prompts and the plan's other metadata are left out.
- MemoryIndexer.MemoryIndexer.SearchChunks: lower-casing maps single characters.
- MemoryIndexer.MemoryIndexer.ChunkContent: is called only where chunking ends (`MemoryIndexer.ChunkingEndsIff`).
- MemoryRanking.CosineSimilarity: real arithmetic with an exact square root; rounding, infinities and NaN are not modelled.
- MemoryPolicies.EvictionSparesTheBest: creation dates are numbers; unparsable dates are not modelled.
- StartupManager.StartupManager.Start: whether a startup works is a fixed property of its name.
- `validateCheckpointIntegrity`, `validateStateTransition`, `getCheckpointProgress`, serializers, config merging, permissions and REST surfaces: what they promise follows at once from their definitions.
- The plugin lifecycle, platform loading, providers and the caching retriever: input and output, foreign code, or results that depend on the clock.
