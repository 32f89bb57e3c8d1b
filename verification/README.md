# Verification of the workflow engine and of the anomaly platform's windows and cooldowns

A Dafny model of the parts of the two services where orderings, interleavings and clocks decide what
happens, with proofs of what holds over every run. `dafny verify dfyconfig.toml` checks it all.

## What is modelled

- `Graphs.dfy`, `Dags.dfy`: task graphs, acyclicity by walks, topological generations, and the `DAG`
  class that parses and validates a definition, answers which tasks may run, and yields the workflow
  that the executor's theorems are about.
- `Workflows.dfy`: what a workflow means with no schedule in sight. Each task has a verdict (ran with
  an output, pruned, or blocked) given by one equation over the verdicts upstream; the equations have
  exactly one solution.
- `StateMachine.dfy`: the execution states, the transition table, the guarded machine, legal histories.
- `Executor.dfy`: `execute_workflow` as a step system. A `run_node` coroutine is a program counter; one
  event is what happens between two awaits or inside one `async with glock` block. Starting, cancelling
  and retrying an execution are events too. Which attempts succeed, fail or time out is left open.
- `ExecutorInvariant.dfy`, `ExecutorTheorems.dfy`, `ExecutorProgress.dfy`, `ExecutorTermination.dfy`,
  `ExecutorCompletion.dfy`, `ExecutorCancel.dfy`, `ExecutorWaves.dfy`: the invariant of every reachable
  state and what follows: safety, when a run ends, and when it ends Completed. A
  theorem about states that satisfy `Inv` holds of every state of every run, by `RunKeeps`.
- `ExecutorMeaning.dfy`: the same results in terms of the rows and the definition alone, with none of
  the engine's own functions in them: what a handler is given, which branch is skipped, what the rows
  and the output of a Completed execution say, and what cancel, retry and each attempt write.
- `WorkflowExecutions.dfy`: the same code as a class that updates its fields in place. Every method is
  proved to be one step of the system, and the object's `Valid()` says that the calls made on it are a
  run, so the theorems about runs hold of the object. `RunNode`, `Gather` and `ExecuteWorkflow` drive
  it through whole executions, and are proved to complete exactly what should complete; what one
  uninterrupted coroutine does is in `NodeRuns.dfy`.
- `MixedJoins.dfy`, `StrayBranches.dfy`: two workflows on which the engine does not do what one expects.
- `Retries.dfy`, `TaskAttempts.dfy`: the retry strategies, each delay and their sums, and the retry loop
  of one task.
- `Scheduling.dfy`, `SchedulerLoops.dfy`: cron schedules checked by any number of workers behind a lock
  that expires, and one worker's loop over all schedules.
- `SlidingWindows.dfy`: the trimmed sorted set, for one client at a time and for many at once.
- `Cooldowns.dfy`: `run_detection` with its record and rule cooldowns.

## How the code was read

- `async with lock` in `execute_workflow` (line 138) is read as `async with glock`, and
  `_apply_condition_branch_skips` as if it had the parameter `glock` that its caller passes.
- `dag.tasks_with_all_predecessors_skipped` is not defined in `DAG`. It is read as the tasks in neither
  set that have a predecessor, all of whose predecessors are in `skipped`; its list is made once per
  round, before the first of them is skipped.
- A wave that fails leaves the printed loop by `break` and returns at 165-166, so the failure exit at
  128-137 is out of reach. `Workflow.breaksOnFailure` is true for the loop as printed and false for the
  loop that goes back to its head. Every theorem holds for both unless it says otherwise:
  `PrintedLoopNeverFails` is about the printed loop, and `FailedWaveExit` says what each loop does.
  With the printed loop a failed execution stays Running and `retry_execution` refuses it, so rounds of
  failure and retry only arise with the intended loop.
- `on_true` and `on_false` may name any task. `WellFormed` asks that a branch target be a descendant of
  its condition (`BranchesDescend`); `StrayCompletesWithoutChosenBranch` shows what happens otherwise.
- One worker runs an execution at a time: a run starts only while none is under way. Cancels and retries
  may come at any moment. An execution's status is read, checked and written in one step.
- A skip adds a task to `skipped` and marks its row in one step, under glock.
- A handler that succeeds returns something that depends only on its task and its merged input
  (`Workflow.result`). Tasks are the known ones, and no handler raises out of `gather`.
- A stored output that is JSON null is `None`. `State.outputData` is the object that `output_data` holds
  under its key "tasks".
- In the scheduler, workers' clocks may say anything and only Redis's clock makes the lock expire. The
  theorems assume that no critical section outlives its lock, and that workers do not crash; the cron
  expression of a schedule does not change. `croniter` is the least slot strictly after its argument.
- In the sorted set, members are new each time (they carry a uuid), and the window size never changes.
- Detections run one after another, on a clock that never goes back but may advance between any two
  commands. Rules in one query have distinct ids. An expiry that is not positive makes Redis refuse the
  command, and the exception leaves `run_detection`. `notification_service` is not part of this model;
  sending is one command that does not fail. Source ids and rule ids are uuids and detectors plain
  names, so none of them holds a colon.

## Model

| member | source | states |
|---|---|---|
| Graphs.PeelDecidesAcyclic | workflow-orchestration-engine/app/engine/dag.py:57-58 | peeling off tasks without predecessors uses up the graph exactly when no walk returns to its start: the acyclicity test |
| Graphs.AcyclicHasRoot | workflow-orchestration-engine/app/engine/dag.py:59-61 | an acyclic graph has a task without predecessors exactly when it has a task, so the root check rejects only the empty definition |
| Graphs.GenerationsPartition | workflow-orchestration-engine/app/engine/dag.py:87-88 | every task is in exactly one generation of the execution order |
| Graphs.GenerationFollowsPredecessors | workflow-orchestration-engine/app/engine/dag.py:87-88 | a task's predecessors are all in earlier generations, and one of them in the generation just before its own |
| Dags.DAG.Load | workflow-orchestration-engine/app/engine/dag.py:24-61 | a definition is accepted if and only if its edges name known tasks, no walk returns to its start and there is a task; an unknown task is reported exactly when an edge names one, and for the first such edge; an accepted object holds exactly the graph defined, with each task's dependencies and dependents |
| Dags.LoadedIsWellFormedIff | workflow-orchestration-engine/app/engine/dag.py:24-61 | the workflow of a validated graph is one the executor's theorems apply to, if and only if its branch targets lie below their conditions |
| Dags.Prepare | workflow-orchestration-engine/app/engine/executor.py:56-57 | loading a definition gives such a workflow over the graph and the specs defined, exactly when the definition is accepted |
| Dags.DAG.AddEdges | workflow-orchestration-engine/app/engine/dag.py:43-46 | stops with the first edge that names an unknown task, or holds exactly the edges listed |
| Dags.DAG.AddNodes | workflow-orchestration-engine/app/engine/dag.py:31-42 | holds the ids listed, in order, each with the last spec listed under it |
| Dags.DAG.LinkNodes | workflow-orchestration-engine/app/engine/dag.py:47-51 | every task gets its predecessors and successors in the graph |
| Dags.DAG.Validate | workflow-orchestration-engine/app/engine/dag.py:53-61 | succeeds exactly on a nonempty acyclic graph, and reports a cycle exactly when there is one |
| Dags.DAG.GetReadyTasks | workflow-orchestration-engine/app/engine/dag.py:74-85 | lists, in dictionary order and once each, the unsettled tasks that are not running and whose predecessors are all completed and none skipped; with nothing running, exactly the tasks the executor starts |
| Dags.DAG.GetNextTasks | workflow-orchestration-engine/app/engine/dag.py:66-72 | lists once each the successors of a task whose predecessors are all completed |
| Dags.NextTasksAreNewlyReady | workflow-orchestration-engine/app/engine/dag.py:66-85 | what completing a task makes newly ready is exactly what the incremental query offers, less the tasks completed, skipped or running |
| Workflows.LoserIsUnchosen | workflow-orchestration-engine/app/engine/executor.py:184-195 | the branch a completed condition skips is the one its result did not choose, whenever that names a known task of a condition with two branches, and otherwise it skips none; which results choose which branch is TrueSkipsOnFalse and OtherwiseSkipsOnTrue |
| Workflows.SolutionExists | workflow-orchestration-engine/app/engine/executor.py:85-174 | the schedule-free equations of a well-formed workflow have a solution |
| Workflows.SolutionUnique | workflow-orchestration-engine/app/engine/executor.py:85-174 | and only one |
| Workflows.PrunedIffEveryWalkHit | workflow-orchestration-engine/app/engine/executor.py:138-153 | a task is pruned exactly when every walk from a root to it meets a directly pruned branch target |
| Workflows.PruningIsLeast | workflow-orchestration-engine/app/engine/executor.py:138-153 | pruning lies inside every set closed under the two ways to be skipped: it is the least fixed point |
| Workflows.WithoutConditionsAllRun | workflow-orchestration-engine/app/engine/executor.py:115-116 | with no condition task every task runs |
| StateMachine.ExecutionStateMachine.TransitionTo | workflow-orchestration-engine/app/engine/state_machine.py:30-41 | moves to the target if and only if the table allows it, and otherwise keeps the state and reports the error |
| StateMachine.TransitionsAre | workflow-orchestration-engine/app/engine/state_machine.py:15-27 | the transitions allowed, listed one by one |
| StateMachine.TerminalStatesAbsorb | workflow-orchestration-engine/app/engine/state_machine.py:15-27 | in a legal history Completed and Cancelled last to the end |
| StateMachine.CompletedComesFromRunning | workflow-orchestration-engine/app/engine/state_machine.py:15-27 | a legal history reaches Completed only straight from Running |
| ExecutorInvariant.CountingGuard | workflow-orchestration-engine/app/engine/executor.py:118-118 | the loop's counting guard is false exactly when every task is in one of the two sets |
| ExecutorInvariant.StepKeeps | workflow-orchestration-engine/app/engine/executor.py:85-174 | every event, of the worker or from outside, keeps the invariant of reachable states |
| ExecutorInvariant.RunKeeps | workflow-orchestration-engine/app/engine/executor.py:43-174 | so it holds in every state of every run |
| ExecutorTheorems.CompletedMeansSpec | workflow-orchestration-engine/app/engine/executor.py:85-174 | a Completed execution, under any interleaving, semaphore size and rounds of failure and retry, completed exactly the tasks the equations run, skipped exactly those they prune, blocked none, and reports their outputs |
| ExecutorTheorems.CompletedRunsAgree | workflow-orchestration-engine/app/services/execution_service.py:81-108 | two completed runs agree on completed tasks, skipped tasks and outputs, however they were scheduled, failed and resumed |
| ExecutorTheorems.HandlersRunReadyTasks | workflow-orchestration-engine/app/engine/executor.py:98-107 | a handler runs only for an unsettled task with all predecessors completed, on the merged input the equations prescribe; what that input holds is HandlersGetTheirInput |
| ExecutorTheorems.SetsStaySound | workflow-orchestration-engine/app/engine/executor.py:108-118 | while a run is on, its two sets are disjoint, completed is closed under predecessors, and the counting guard says whether a task is unsettled |
| ExecutorTheorems.HeadSeesBranchesPruned | workflow-orchestration-engine/app/engine/executor.py:115-161 | whenever the loop is at its head, the losing branch of every completed condition is already skipped |
| ExecutorTheorems.PermitsConserved | workflow-orchestration-engine/app/engine/executor.py:36-36 | permits free and permits held add up to the semaphore's size, so no more tasks than that are inside |
| ExecutorTheorems.SettledRowsStay | workflow-orchestration-engine/app/services/execution_service.py:94-102 | no event, a retry or cancel included, unsettles a completed or skipped row or changes its output |
| ExecutorTheorems.SettledTasksAreNotInvokedAgain | workflow-orchestration-engine/app/engine/executor.py:72-113 | once its row is completed or skipped, no attempt in any later wave, run or retry round is made for a task |
| ExecutorTheorems.StatusHistoryIsLegal | workflow-orchestration-engine/app/services/execution_service.py:85-92 | under any interleaving of runs, cancels and retries the status walks the transition table, although the retry assigns Pending outside its guard |
| ExecutorTheorems.StatusStep | workflow-orchestration-engine/app/engine/executor.py:339-370 | which step may write Completed, and which Failed, and from where |
| ExecutorTheorems.CompletionIsClean | workflow-orchestration-engine/app/engine/executor.py:154-167 | Completed is written after the loop, with nothing failed, no coroutine in flight and every task in exactly one set |
| ExecutorTheorems.PrintedLoopNeverFails | workflow-orchestration-engine/app/engine/executor.py:128-166 | the loop as printed never makes an execution Failed |
| ExecutorTheorems.FailedWaveExit | workflow-orchestration-engine/app/engine/executor.py:128-166 | a wave that failed ends the run two steps later, leaving it Failed and open to retry if and only if the loop does not break on failure |
| ExecutorMeaning.HandlersGetTheirInput | workflow-orchestration-engine/app/engine/executor.py:102-107 | in every run, while a handler is invoked, its input holds under "tasks" exactly the outputs of its completed predecessors, each of them also under its own name, and under every other key exactly what the trigger input holds there |
| ExecutorMeaning.ReadingMeans | workflow-orchestration-engine/app/engine/executor.py:102-106 | the same of the merge itself, in terms of the outputs the worker has recorded |
| ExecutorMeaning.TrueSkipsOnFalse | workflow-orchestration-engine/app/engine/executor.py:184-195 | an output that is an object whose "result" is the boolean true skips on_false |
| ExecutorMeaning.OtherwiseSkipsOnTrue | workflow-orchestration-engine/app/engine/executor.py:184-195 | every other output skips on_true: none, not an object, no "result", or any other value |
| ExecutorMeaning.HeadHasSkippedUnpicked | workflow-orchestration-engine/app/engine/executor.py:115-161 | so in every run, at a loop head, the branch that a completed condition's row output does not pick is skipped |
| ExecutorMeaning.CompletedRowsMean | workflow-orchestration-engine/app/engine/executor.py:85-174 | in a Completed execution each task is completed or skipped; it is skipped exactly if a completed condition's output did not pick it or it has predecessors and all are skipped; a completed one has only completed predecessors, and its output is what its handler returns on the input their rows give |
| ExecutorMeaning.CompletedOutputMeans | workflow-orchestration-engine/app/engine/executor.py:163-167 | the output of a Completed execution holds exactly the outputs in the rows of completed tasks |
| ExecutorMeaning.DispatchMeans | workflow-orchestration-engine/app/engine/executor.py:58-83 | a run that starts has taken exactly its completed and skipped rows and their outputs, has failed nothing, and makes Pending Running |
| ExecutorMeaning.CheckMeans | workflow-orchestration-engine/app/engine/executor.py:89-97 | the check under the semaphore reads the committed status, and only Cancelled makes the coroutine give its permit back |
| ExecutorMeaning.LoopRefreshes | workflow-orchestration-engine/app/engine/executor.py:118-166 | a turn of the loop and the step after it read the committed status, unless the guard has failed first; a Cancelled one ends the run |
| ExecutorMeaning.SettledLeaves | workflow-orchestration-engine/app/engine/executor.py:154-158 | a turn that goes round again has a task left to settle and none to start |
| ExecutorMeaning.CancelMeans | workflow-orchestration-engine/app/engine/executor.py:366-375 | a cancel makes a Pending or Running execution Cancelled and leaves any other status; its pending and running rows become cancelled, and nothing else changes |
| ExecutorMeaning.RetryMeans | workflow-orchestration-engine/app/services/execution_service.py:85-102 | a retry of a Pending, Failed or TimedOut execution makes it Pending with no output, and every failed row pending with no output and all its attempts again; of any other it changes nothing |
| ExecutorMeaning.NewRowMeans | workflow-orchestration-engine/app/engine/executor.py:210-226 | a row that was not there is pending, with no output, at its first attempt, and with the configured number of them, at least one |
| ExecutorMeaning.RowsAreAsConfigured | workflow-orchestration-engine/app/engine/executor.py:210-226 | in every run every row may make the configured number of attempts, at least one |
| ExecutorMeaning.SkippingMeans | workflow-orchestration-engine/app/engine/executor.py:138-153 | a skip changes the status of the rows it marks and nothing else of them |
| ExecutorMeaning.AttemptMeans | workflow-orchestration-engine/app/engine/executor.py:237-265 | the handler is called, with the row running, exactly if attempts are left and the worker has not seen a cancel |
| ExecutorMeaning.ReturnMeans | workflow-orchestration-engine/app/engine/executor.py:241-326 | what success, failure and timeout each write to the row, and whether another attempt follows |
| ExecutorMeaning.WakeMeans | workflow-orchestration-engine/app/engine/executor.py:246-249 | after the backoff the row is pending at the next attempt, with the output it had |
| ExecutorMeaning.SeenCancelStopsCalls | workflow-orchestration-engine/app/engine/executor.py:238-239 | once the worker has seen the cancel, in any run, no handler is called again |
| ExecutorProgress.HeadProgress | workflow-orchestration-engine/app/engine/executor.py:118-158 | a loop head has a task to start, a skip to propagate, every task settled, or an unsettled join of completed and skipped predecessors |
| ExecutorProgress.QuiescentIsSpec | workflow-orchestration-engine/app/engine/executor.py:138-158 | at a head with nothing to start or propagate the two sets are those of the equations |
| ExecutorProgress.QuiescentHead | workflow-orchestration-engine/app/engine/executor.py:154-158 | such a head leaves the loop if and only if no task is blocked; otherwise the poll changes no set |
| ExecutorCompletion.CompletedInReachIff | workflow-orchestration-engine/app/engine/executor.py:43-174 | in every reachable state that is not Cancelled, whatever failed before, Completed is in reach if and only if no task is blocked |
| ExecutorCompletion.WorkerCompletesIff | workflow-orchestration-engine/app/engine/executor.py:118-174 | from a Running state with nothing failed the worker can complete the execution by itself if and only if no task is blocked |
| ExecutorCompletion.UnblockedRunsEnd | workflow-orchestration-engine/app/engine/executor.py:118-174 | with no task blocked every run ends, under any schedule and any outcomes, and ends Completed if nothing failed |
| ExecutorCompletion.IdleIffBlocked | workflow-orchestration-engine/app/engine/executor.py:154-158 | a turn of the loop idles exactly when nothing is left to start or skip and a task is blocked |
| ExecutorCompletion.BlockedRunPolls | workflow-orchestration-engine/app/engine/executor.py:154-158 | from then on nothing changes, until a call comes from outside |
| ExecutorProgress.BlockedNeverCompletes | workflow-orchestration-engine/app/engine/executor.py:118-158 | a workflow with a blocked task is never Completed in any run: the negative half of the reachability result |
| ExecutorProgress.BlockedHasMixedJoin | workflow-orchestration-engine/app/engine/dag.py:80-83 | a blocked task has, at or above it, a join of ran and pruned predecessors |
| ExecutorProgress.TreesNeverBlock | workflow-orchestration-engine/app/engine/dag.py:80-83 | when every task has at most one predecessor, none is blocked |
| ExecutorTermination.WorkerStepIsCloser | workflow-orchestration-engine/app/engine/executor.py:93-161 | every worker step but an idle poll goes down a well-founded order |
| ExecutorTermination.RunsHaveFewRounds | workflow-orchestration-engine/app/engine/executor.py:118-161 | a run has at most as many rounds that start or skip anything as there are tasks (that it ends is UnblockedRunsEnd) |
| ExecutorTermination.WorkerIsNeverStuck | workflow-orchestration-engine/app/engine/executor.py:95-116 | a run that is not over always has a step to take: semaphore first and glock second cannot deadlock |
| ExecutorCancel.CancelBoundsCalls | workflow-orchestration-engine/app/engine/executor.py:237-250 | after a cancel the calls still made for a task are at most the attempts it had left, and the execution stays Cancelled |
| ExecutorCancel.UncheckedTasksAreNotCalled | workflow-orchestration-engine/app/engine/executor.py:96-97 | a task that had not passed the check when the cancel was committed is not called at all |
| ExecutorCancel.FewTasksAreStillCalled | workflow-orchestration-engine/app/engine/executor.py:36-97 | in all of the run after a cancel, at most as many tasks as the semaphore admits are called, each at most its number of attempts |
| ExecutorWaves.WavesAreGenerations | workflow-orchestration-engine/app/engine/executor.py:152-161 | with no condition tasks, failure or cancel, the k-th wave is exactly the k-th generation of the execution order |
| MixedJoins.DiamondIsWellFormed | workflow-orchestration-engine/app/engine/dag.py:24-61 | a condition whose two branches meet again is a workflow the model accepts |
| MixedJoins.DiamondNeverCompletes | workflow-orchestration-engine/app/engine/executor.py:118-158 | and no run of it ever completes, whatever its handlers do |
| StrayBranches.BesideIsInBothSets | workflow-orchestration-engine/app/engine/executor.py:194-197 | whenever one root prunes another, and not the other way round, some run puts the pruned one in both sets |
| StrayBranches.StrayCompletesWithoutChosenBranch | workflow-orchestration-engine/app/engine/executor.py:118-118 | with a branch target beside its condition, a run ends Completed with one task counted twice and the chosen branch never run: the descendant hypothesis is needed |
| WorkflowExecutions.WorkflowExecution.LoadRows | workflow-orchestration-engine/app/engine/executor.py:72-82 | the sets and outputs are exactly those the rows record |
| WorkflowExecutions.WorkflowExecution.Begin | workflow-orchestration-engine/app/engine/executor.py:58-83 | starts a run: is the Dispatch step |
| WorkflowExecutions.WorkflowExecution.CancelLiveRows | workflow-orchestration-engine/app/engine/executor.py:371-374 | exactly the pending and running rows become cancelled |
| WorkflowExecutions.WorkflowExecution.CancelExecution | workflow-orchestration-engine/app/engine/executor.py:366-375 | is the Cancel step: Cancelled if it was Pending or Running, with exactly the pending and running rows cancelled |
| WorkflowExecutions.WorkflowExecution.ResetFailedRows | workflow-orchestration-engine/app/services/execution_service.py:94-102 | exactly the failed rows are reset to a first attempt |
| WorkflowExecutions.WorkflowExecution.RetryExecution | workflow-orchestration-engine/app/services/execution_service.py:85-108 | is the Retry step: accepts exactly a Pending, Failed or TimedOut execution, which is then Pending with no output and its failed rows at a first attempt; otherwise changes nothing |
| WorkflowExecutions.WorkflowExecution.GetOrCreateTaskExecution | workflow-orchestration-engine/app/engine/executor.py:210-226 | returns the task's row, made fresh if there was none |
| WorkflowExecutions.WorkflowExecution.PropagateSkips | workflow-orchestration-engine/app/engine/executor.py:138-153 | skips, and marks, exactly the tasks all of whose predecessors were skipped before |
| WorkflowExecutions.WorkflowExecution.LoopOnce | workflow-orchestration-engine/app/engine/executor.py:118-159 | one turn of the main loop is the Head step |
| WorkflowExecutions.WorkflowExecution.EndWave | workflow-orchestration-engine/app/engine/executor.py:159-161 | is the step that ends a wave |
| WorkflowExecutions.WorkflowExecution.CompleteExecution | workflow-orchestration-engine/app/engine/executor.py:163-167 | is the Finish step; Completed with the outputs exactly when it succeeds |
| WorkflowExecutions.WorkflowExecution.EnterSemaphore | workflow-orchestration-engine/app/engine/executor.py:95-95 | takes a free permit |
| WorkflowExecutions.WorkflowExecution.AcquireLock | workflow-orchestration-engine/app/engine/executor.py:98-108 | takes glock when it is free |
| WorkflowExecutions.WorkflowExecution.LeaveIfCancelled | workflow-orchestration-engine/app/engine/executor.py:96-97 | is the check under the semaphore |
| WorkflowExecutions.WorkflowExecution.LeaveIfSettled | workflow-orchestration-engine/app/engine/executor.py:98-101 | is the first glock block |
| WorkflowExecutions.WorkflowExecution.ReadInputs | workflow-orchestration-engine/app/engine/executor.py:102-106 | the handler will get under "tasks" exactly the outputs recorded for its predecessors, each also under its own name, and under other keys the trigger input |
| WorkflowExecutions.WorkflowExecution.RecordOutcome | workflow-orchestration-engine/app/engine/executor.py:108-115 | is the glock block that records the outcome and chooses the branch to skip |
| WorkflowExecutions.WorkflowExecution.ApplyConditionBranchSkips | workflow-orchestration-engine/app/engine/executor.py:194-201 | is the glock block that skips the losing branch |
| WorkflowExecutions.WorkflowExecution.StartAttempt | workflow-orchestration-engine/app/engine/executor.py:237-265 | is the head of the retry loop and the commit before the handler |
| WorkflowExecutions.WorkflowExecution.EndAttempt | workflow-orchestration-engine/app/engine/executor.py:280-326 | is the return of the handler with the commit of its outcome |
| WorkflowExecutions.WorkflowExecution.NextAttempt | workflow-orchestration-engine/app/engine/executor.py:246-249 | is the end of the backoff |
| WorkflowExecutions.WorkflowExecution.RunNode | workflow-orchestration-engine/app/engine/executor.py:93-116 | a coroutine alone leaves exactly the state that NodeRun describes: the row after its attempts, the task completed if one of them succeeds and the run failed if none does, the losing branch skipped, permit and lock given back, and nothing else |
| WorkflowExecutions.WorkflowExecution.Gather | workflow-orchestration-engine/app/engine/executor.py:159-159 | a wave completes exactly the tasks with an attempt that succeeds, fails exactly if one has none, and gives back all permits and the lock |
| WorkflowExecutions.WorkflowExecution.ExecuteWorkflow | workflow-orchestration-engine/app/engine/executor.py:43-174 | with no task blocked the run ends; an execution that was Pending or Running ends Completed if and only if, besides, every task the equations run was completed before or has an attempt that succeeds; then it holds the solution of the equations; otherwise a blocked task leaves it polling |
| WorkflowExecutions.WorkflowExecution.TakeTurn | workflow-orchestration-engine/app/engine/executor.py:118-161 | one turn of the loop keeps the progress made, and comes nearer to the end unless it idles for a blocked task |
| WorkflowExecutions.WorkflowExecution.RunLoop | workflow-orchestration-engine/app/engine/executor.py:118-161 | the loop is left, or polls at a head where nothing can be started or skipped and a task is blocked |
| WorkflowExecutions.WorkflowExecution.TryTask | workflow-orchestration-engine/app/engine/executor.py:236-250 | the retry loop of a coroutine makes the same calls and leaves the same row as the retry loop of one task on its own |
| NodeRuns.CallsDecide | workflow-orchestration-engine/app/engine/executor.py:236-250 | the calls made are the failed ones and the first that succeeds, or all the attempts left |
| WorkflowExecutions.CompletedObjectIsSpec | workflow-orchestration-engine/app/engine/executor.py:43-174 | so does an object on which any sequence of the methods has been called |
| Retries.ExponentialBackoffBound | workflow-orchestration-engine/app/engine/retry.py:21-31 | over n attempts exponential backoff sleeps at most 1.5 times the lesser of base (2^(n-1) - 1) and (n-1) max_delay |
| Retries.LinearBackoffBound | workflow-orchestration-engine/app/engine/retry.py:34-41 | over n attempts linear backoff sleeps at most the lesser of d n (n-1) / 2 and (n-1) max_delay |
| Retries.FixedDelaysAddUp | workflow-orchestration-engine/app/engine/retry.py:13-18 | over n attempts the fixed strategy sleeps (n-1) delays |
| Retries.ConfiguredBackoffBound | workflow-orchestration-engine/app/engine/retry.py:44-56 | the same three results in terms of a retry configuration, with its defaults |
| Retries.JitterRespectsCapIff | workflow-orchestration-engine/app/engine/retry.py:27-31 | every draw keeps the delay within max_delay if and only if 1.5 times the uncapped delay is within it |
| Retries.JitterCanExceedCap | workflow-orchestration-engine/app/engine/retry.py:27-31 | jitter comes after the cap: with the default numbers a delay can be 375 seconds |
| Retries.FirstDelays | workflow-orchestration-engine/app/engine/retry.py:13-41 | the fixed delay is the same after every attempt, and the first linear one is the initial delay under the cap |
| Retries.LinearGrows | workflow-orchestration-engine/app/engine/retry.py:34-41 | each linear delay is the one before plus the increment, until it meets the cap |
| Retries.LinearExactSum | workflow-orchestration-engine/app/engine/retry.py:34-41 | below the cap linear backoff sleeps exactly d n (n-1) / 2 over n attempts |
| Retries.ExponentialStarts | workflow-orchestration-engine/app/engine/retry.py:21-31 | the first exponential delay is the base under the cap, times the jitter |
| Retries.ExponentialDoubles | workflow-orchestration-engine/app/engine/retry.py:21-31 | each exponential delay is twice the one before, until it meets the cap, and the jitter scales what the cap has left |
| Retries.ConfiguredFirstDelay | workflow-orchestration-engine/app/engine/retry.py:44-56 | the first delay that each configuration gives, with its defaults |
| TaskAttempts.TaskExecution.ExecuteTaskOnce | workflow-orchestration-engine/app/engine/executor.py:252-326 | status, output and attempt after one attempt, for each of the three outcomes |
| TaskAttempts.TaskExecution.ExecuteTaskWithRetries | workflow-orchestration-engine/app/engine/executor.py:236-250 | stops at the first success, the first check that sees a cancel, or the last attempt: result, number of calls, row and time slept |
| TaskAttempts.UncancelledCalls | workflow-orchestration-engine/app/engine/executor.py:236-250 | with no cancel the handler is called min(first success, attempts left) times, and the task succeeds exactly if an attempt does |
| TaskAttempts.AttemptedRow | workflow-orchestration-engine/app/engine/executor.py:247-248 | after n calls the row counts n - 1 more attempts and has the status and output of the last outcome; a timeout leaves the output before it |
| Scheduling.MutualExclusion | workflow-orchestration-engine/app/cache/redis_client.py:35-39 | while no critical section outlives its lock, no two workers are in it together, although the release deletes whatever lock there is |
| Scheduling.FiringsAdvance | workflow-orchestration-engine/app/engine/scheduler.py:50-70 | slots fired strictly increase, each was due, and each is the first cron slot after the clock of the firing before, whatever the workers' clocks say |
| Scheduling.RunsAreSlots | workflow-orchestration-engine/app/engine/scheduler.py:66-70 | firings map one to one to distinct cron slots, and total_runs grows by exactly the triggers sent, but for one not yet committed |
| Scheduling.DowntimeFiresOnce | workflow-orchestration-engine/app/engine/scheduler.py:56-69 | of the slots missed by any time, the firings from then on consume at most one, at the first of them |
| Scheduling.OverrunFiresTwice | workflow-orchestration-engine/app/cache/redis_client.py:35-39 | a worker that outlives its lock lets another fire the same slot: the hypothesis is needed |
| Scheduling.AcquireMeans | workflow-orchestration-engine/app/cache/redis_client.py:35-36 | a lock that is absent or expired is taken and then held for exactly 120 seconds; one that is held is not taken |
| Scheduling.ChooseMeans | workflow-orchestration-engine/app/engine/scheduler.py:47-66 | a worker sends one trigger, for the row's slot, exactly if row and workflow are active and that slot is not after its clock; with no next run, or a slot to come, it sends none |
| Scheduling.CommitMeans | workflow-orchestration-engine/app/engine/scheduler.py:50-70 | in a timely run a commit gives a row with no next run the first slot after the worker's clock; a due one gets that slot, its last run and one more in the count; nothing else changes |
| Scheduling.CommitWrites | workflow-orchestration-engine/app/engine/scheduler.py:66-70 | with no assumption on time, a commit writes the count of the copy plus one, and the slot after the worker's clock |
| Scheduling.RefreshAndReleaseMean | workflow-orchestration-engine/app/engine/scheduler.py:47-72 | the copy is the row as it is under the lock, and the release frees the lock |
| SchedulerLoops.RedisClient.AcquireLock | workflow-orchestration-engine/app/cache/redis_client.py:35-36 | succeeds exactly when the key is absent or expired, and then holds it for the given time |
| SchedulerLoops.RedisClient.ReleaseLock | workflow-orchestration-engine/app/cache/redis_client.py:38-39 | removes the key, whoever holds it |
| SchedulerLoops.WorkflowScheduler.VisitSchedule | workflow-orchestration-engine/app/engine/scheduler.py:47-70 | one visit inside the lock, in the row's own fields: fires exactly if row and workflow are active and next_run_at is not after the clock, sets the next run alone if there is none, and otherwise changes nothing |
| SchedulerLoops.WorkflowScheduler.CheckAndTrigger | workflow-orchestration-engine/app/engine/scheduler.py:34-72 | visits the listed schedules whose locks are free, in order, and gives back every lock it takes |
| SchedulerLoops.VisitsAreSeparate | workflow-orchestration-engine/app/engine/scheduler.py:41-70 | a schedule listed once is visited once if its lock is free, and no visit changes another schedule's row |
| SchedulerLoops.SentIffDue | workflow-orchestration-engine/app/engine/scheduler.py:48-66 | a check sends a trigger for a slot exactly once if its schedule is listed, free and active, its workflow active, next_run_at that slot and the slot not after the clock; otherwise never |
| SchedulerLoops.CheckedRow | workflow-orchestration-engine/app/engine/scheduler.py:41-70 | what a check leaves in each row: a next run alone where there was none, a new slot, last run and count where it fired, and no change anywhere else |
| SchedulerLoops.LockKeysDiffer | workflow-orchestration-engine/app/engine/scheduler.py:42-43 | two schedules do not share a lock |
| SlidingWindows.WindowIsLastOfSorted | anomaly-detection-platform/app/cache/redis_client.py:48-57 | trimming at each insertion, late and tied timestamps included, agrees with sorting the whole history and taking the last members |
| SlidingWindows.LastIsWindow | anomaly-detection-platform/app/cache/redis_client.py:48-57 | those last members, in terms of timestamps and bytes: scores never fall from one to the next, no member of the history outside has a higher score than one inside, and equal scores go by the member's bytes |
| SlidingWindows.LexMeans | anomaly-detection-platform/app/cache/redis_client.py:54-54 | the order of members with one score goes by the first position where their bytes differ, and a proper prefix comes first |
| SlidingWindows.ValuesAreSeparate | anomaly-detection-platform/app/cache/redis_client.py:40-46 | a member that decodes yields its value, one that does not yields nothing, and neither affects the values of the others |
| SlidingWindows.ArrivalOrderIsIrrelevant | anomaly-detection-platform/app/cache/redis_client.py:48-57 | two histories with the same members leave the same window |
| SlidingWindows.SortedHistoryIsSorted | anomaly-detection-platform/app/cache/redis_client.py:54-54 | inserting in order keeps the set sorted and holds exactly the members added; what the order is on scores and bytes is LastIsWindow |
| SlidingWindows.TrimThenInsert | anomaly-detection-platform/app/cache/redis_client.py:55-57 | what was trimmed away can never come back into the window |
| SlidingWindows.RedisClient.AddToSlidingWindow | anomaly-detection-platform/app/cache/redis_client.py:48-57 | keeps the set equal to the latest members of the history with the new one: none outside has a later timestamp than one inside, and they are in order of timestamp |
| SlidingWindows.RedisClient.GetSlidingWindow | anomaly-detection-platform/app/cache/redis_client.py:36-46 | returns, oldest first, the values of those that decode among the latest members of the whole history |
| SlidingWindows.DecodableValues | anomaly-detection-platform/app/cache/redis_client.py:40-46 | when every member decodes, the values are those of the members, one for one and in order |
| SlidingWindows.QuiescentFits | anomaly-detection-platform/app/cache/redis_client.py:54-57 | however many clients interleave their three commands, once all calls have returned the set fits the window |
| SlidingWindows.IntactIffCovered | anomaly-detection-platform/app/cache/redis_client.py:54-57 | an interleaving keeps the last members of everything added, in all its states, if and only if no trim had counted more members than there were, unless the count was within the window |
| SlidingWindows.QuiescentIsWindow | anomaly-detection-platform/app/cache/redis_client.py:54-57 | in such a run the set is exactly the window once all calls have returned |
| SlidingWindows.UncrossedRunsKeepTheWindow | anomaly-detection-platform/app/cache/redis_client.py:54-57 | it is so whenever no client trims between another client's count and its trim, whatever else interleaves |
| SlidingWindows.OverTrimLoses | anomaly-detection-platform/app/cache/redis_client.py:55-57 | a trim with a count above the set and the window costs a nonempty window a member |
| SlidingWindows.StaleCountsEmptyTheWindow | anomaly-detection-platform/app/cache/redis_client.py:54-57 | two clients with stale counts can empty a window of one |
| Cooldowns.MeetsIffKnown | anomaly-detection-platform/app/services/detection_engine.py:18-22 | a severity meets a threshold exactly when both are known names and it ranks no lower |
| Cooldowns.RecordedIff | anomaly-detection-platform/app/services/detection_engine.py:50-70 | a result adds one record, of its own fields, exactly if it is an anomaly whose cooldown is absent or over; otherwise nothing is recorded, matched or sent |
| Cooldowns.LastValueIsCurrent | anomaly-detection-platform/app/services/detection_engine.py:33-47 | the detectors get the last value of the window as current and the rest as history |
| Cooldowns.NothingToDetect | anomaly-detection-platform/app/services/detection_engine.py:33-44 | with no source or no values a call does nothing |
| Cooldowns.RecordKeysDiffer | anomaly-detection-platform/app/services/detection_engine.py:53-53 | two series of records, of another source, metric or detector, do not share a cooldown key |
| Cooldowns.SeriesCoolSeparately | anomaly-detection-platform/app/services/detection_engine.py:53-70 | recording one series leaves the cooldown of every other as it was |
| Cooldowns.RecordsAreSpaced | anomaly-detection-platform/app/services/detection_engine.py:53-70 | two records of one source, metric and detector are at least ANOMALY_COOLDOWN_SECONDS apart, in any sequence of detections |
| Cooldowns.RecordRate | anomaly-detection-platform/app/services/detection_engine.py:53-70 | so an interval of length L holds at most floor(L / C) + 1 of them |
| Cooldowns.MatchesAreSpaced | anomaly-detection-platform/app/services/detection_engine.py:109-113 | a later match of a rule waits out the cooldown the rule had at the earlier one |
| Cooldowns.NotificationsWait | anomaly-detection-platform/app/services/detection_engine.py:99-117 | of two notifications of one unchanged rule for one source and metric, the second waits out the record cooldown from the first one's record, and the rule's cooldown from its match |
| Cooldowns.NotificationsAreSpaced | anomaly-detection-platform/app/services/detection_engine.py:99-117 | so they are the longer cooldown apart, less the time the first took from its record to its delivery |
| Cooldowns.InstantNotificationsAreSpaced | anomaly-detection-platform/app/services/detection_engine.py:99-117 | if a call takes no time, they are the longer of the two cooldowns apart |
| Cooldowns.SpacingIsTight | anomaly-detection-platform/app/services/detection_engine.py:99-117 | for any two cooldowns and any lag up to the longer there is a run in which they are exactly that much closer |
| Cooldowns.SlowDeliveryBringsNotificationsCloser | anomaly-detection-platform/app/services/detection_engine.py:114-117 | with both cooldowns at ten seconds, two notifications can come one second apart |
| Cooldowns.ApplicableRulesMatch | anomaly-detection-platform/app/services/detection_engine.py:100-113 | with no rule cooling, a record matches exactly the rules that apply to it, in order and once each; which those are is RuleMatchesIff |
| Cooldowns.RuleMatchesIff | anomaly-detection-platform/app/services/detection_engine.py:100-113 | with none cooling and no error, a rule is among the new matches if and only if it is in the list, its source and metric are absent or the record's, its detector is the record's, and severity and threshold are known names and in order |
| Cooldowns.AppliesMeans | anomaly-detection-platform/app/services/detection_engine.py:101-108 | when a rule applies, in its own fields |
| Cooldowns.NotifyAll | anomaly-detection-platform/app/services/detection_engine.py:114-117 | every match of a record is notified once, in order |
| Cooldowns.RuleKeysDiffer | anomaly-detection-platform/app/services/detection_engine.py:109-109 | two rules do not share a cooldown key |
| Cooldowns.RuleSeriesDiffer | anomaly-detection-platform/app/services/detection_engine.py:109-109 | nor do two rules, nor one rule on two sources or two metrics |
| Cooldowns.ArmMeans | anomaly-detection-platform/app/cache/redis_client.py:77-80 | a key armed for a positive time lasts exactly that long, and the others are left; otherwise it fails and no key changes |
| Cooldowns.DetectionEngine.CheckCooldown | anomaly-detection-platform/app/cache/redis_client.py:73-75 | true exactly while the key has not expired |
| Cooldowns.DetectionEngine.ArmCooldown | anomaly-detection-platform/app/cache/redis_client.py:77-80 | the key lasts the given time, or the configured one if none is given; a time that is not positive raises and arms nothing |
| Cooldowns.DetectionEngine.MatchRules | anomaly-detection-platform/app/services/detection_engine.py:99-113 | the rule loop, with the exception that can leave it; which rules it matches is RuleMatchesIff |
| Cooldowns.DetectionEngine.HandleResult | anomaly-detection-platform/app/services/detection_engine.py:51-117 | one detector result: cooldown, record, rules, notifications |
| Cooldowns.DetectionEngine.RunDetection | anomaly-detection-platform/app/services/detection_engine.py:33-117 | one whole call, with its early returns and the exception that can leave it |

## Left out

- Database sessions, JSON columns, Celery, Kafka, WebSocket and pub/sub: a commit is an atomic write of a row, and broadcasts are dropped.
- Task handlers, detectors, `croniter` and `networkx` are not looked into: handlers and detectors are arbitrary functions, the cron slots and the graph notions are specified directly.
- Timestamps other than those that decide something, durations, error strings and output normalisation.
- Crashes: a worker that dies between sending a trigger and its commit, or in the middle of a wave, is not modelled.
- Two workers on one execution, lost updates of a status, and edits of a workflow between a failure and its retry.
- Rollback of the rows that `run_detection` added before an exception: the model keeps them, so that the spacing is proved of more records than survive.
- CRUD services, paging, statistics, dashboards, schemas, migrations and API routes: easy members.
- WorkflowExecutions.WorkflowExecution.ExecuteWorkflow: waits for a given number of idle polls where the source polls for ever, which only matters when a task is blocked; it runs the coroutines of a wave one after another with no call from outside, and the interleavings are those of the step system.
- TaskAttempts.TaskExecution.ExecuteTaskWithRetries: is the retry loop of one task on its own; what other coroutines do between its steps enters only as what each cancel check sees.
- SchedulerLoops.WorkflowScheduler.CheckAndTrigger: takes the schedules listed as active as a parameter, and is one worker with no other interfering and no lock expiring during the call; workers that interleave are those of the step system for one schedule.
- Retries.ExponentialBackoffBound: reads delays as real numbers that are not negative, with no rounding, and so do the other two bounds.
