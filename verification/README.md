# A verified model of the distributed workflow engine

The engine stores a workflow as task rows with an `in_degree` column and drives it with parties that share nothing but
a database, two Redis lists and two pub/sub channels: a submitter that pushes root tasks, worker threads that pop,
claim by version, execute, mark and announce, and a coordinator that resolves dependencies by decrementing `in_degree`
(Kahn's algorithm), taints children of failures with `skip_hint`, and gives the workflow its verdict. No single place in
the code checks that this works: claims are guarded by the version alone, marks by nothing, and the counters are changed
outside the version check. This project models the whole protocol and proves that it works, and where it does not.

`dafny verify dfyconfig.toml` checks everything.

## How the model is built

**The protocol** (`Domain`, `TaskTable`, `WorkerSteps`, `Protocol`). One transition system over any number of workflows
and worker threads. Every SQL statement, push, pop, publish and channel receive is a step of its own, and steps of
different parties interleave arbitrarily. `WorkerSteps.Advance` is the worker's program, one statement at a time, on the
snapshot it holds in memory and the row as it is now. The select loop's choice between the two channels, the order in
which a decrement statement returns rows and the choice of who moves next are all free. Runs come in three modes:

- *Reliable*: nothing is lost;
- *Lossy*: in addition pushes fail (a failed root push drops the remaining roots as well, as in
  internal/service/workflow_service.go:53-60), events vanish, workers and the coordinator stop between any two statements;
- *Chaotic*: in addition arbitrary ids appear in the queues, so that tasks are popped twice and snapshots are stale.

**The classes** (`Repositories`, `Messaging`, `Submission`, `WorkerPool`, `CoordinatorLoop`). The repositories, queue,
event bus, mapper, service, handler, worker and coordinator in the source's own imperative form: fields updated in place,
row loops, append loops, compare-and-set methods. Each is proved twice over: against the functions of `TaskTable` and
`WorkerSteps`, and in plain terms, column by column and entry by entry, without them.

**Between the two** (`Refinement`, `LateSubmission`, `Intake`, `Server`). What these methods do undisturbed is a run of
the protocol's atomic steps, and what the handler stores, at any moment of a run, might as well have been stored from the
start. `Server.Program` wires the objects as cmd/server/main.go does and keeps, from an empty database through any
sequence of requests, worker turns and coordinator turns, the invariant that tables, queues and channels are those of a
state that the protocol reaches; so what is proved of reachable states holds of them (`Server.Program.DrainedVerdict`).
`Faults` says how general the protocol is: who may move when, what may go wrong when, and that no step touches two of
the tables, lists and channels.

**The proofs.** They come in two layers.

- *Whatever the request says* (`Tokens` to `Reachability`): each task has at most one place, its row fits that place,
  `in_degree` is the list length less the number of parents resolved, and `skip_hint` says whether one of these did not
  complete. From this alone follow token conservation, termination, progress and the soundness and delivery of verdicts.
- *For balanced requests* (`Order` onwards): the log of resolved tasks is a topological prefix, counters stop at zero,
  and nothing that was claimed is ever tainted. From this follow Kahn's algorithm, confluence, the recursive evaluation,
  dependency safety and the failure cone (`Kahn`, `Outcome`, `Confluence`, `Evaluation`).

`RepeatedReferences` and `Unregistered` show that the conditions used are exact, and `EarlyRelease` gives a request that
fails one. `RetryBound`, `UnknownActions`, `OrderIndependence` and `Projection` stand beside these.

Throughout, *what the dependency lists let run* is the least set of tasks closed under "the list has no duplicate and
each entry names a task of the set" (`Closure.LeastClosed`), and a request is *balanced* (`Closure.Balanced`) if no task
has more parents in that set than its list is long, and as many only if it is in the set itself. Both can be computed
from the request. A *parent* is any task of the workflow whose reference is listed.

## What is assumed

- Stored ids are unique; a workflow's rows and its execution row are stored in one transaction
  (internal/core/postgres/repository/task_repository_impl.go:24-54). In a run all workflows are stored before the first
  step. This is no restriction: `Intake.StoredAnytime` shows that with a workflow stored later the system is in a state
  that it could have reached with that workflow stored from the start, unless a stray entry guessed its ids.
- Each database statement is atomic and succeeds.
- Nothing is assumed of references for the first layer. The code does not check that `ref_id`s are unique within a
  request (internal/api/dto/request.go:6, internal/mapper/workflow_mapper.go:13-46). The second layer assumes balanced
  requests, and `RepeatedReferences.DependencyOrderExactly` shows that this is exact: no task is ever released before its
  dependencies are resolved if and only if the request is balanced. Unique references are always balanced
  (`Closure.UniqueIsOrderly`), and so are some others (`EarlyRelease.LooseIsBalanced`). For a request that is not,
  `EarlyRelease.TwinsReleaseEarly` exhibits a run in which a task completes before one of its dependencies was queued.
  That `in_degree` counts distinct *references* holds for fewer requests still; `RepeatedReferences.InDegreesExactly`
  says for which.
- Both layers assume registered actions (`Protocol.Registered`). The code marks a task with an unknown action FAILED,
  announces it, and then still reports an error that may retry it (internal/worker/worker.go:140-160, 67-70).
  `Unregistered.TokensExactly` shows that in balanced requests tokens are conserved, whatever the handlers answer, if and
  only if every task that its dependency list lets run names a registered action. `RetryBound` and `UnknownActions` need no such
  assumption.
- A handler is an oracle that succeeds or fails for each task and attempt number.
- Acyclic, complete and duplicate-free dependency lists are assumed only where a result says *well-formed*.
- Results about states in which nothing can move assume a thread on each queue, as cmd/server/main.go:69-76 starts them.

## What the code does that its documentation does not say

- The project's README (line 9) announces exponential backoff; a retry is pushed at once
  (internal/worker/worker.go:187-202). The model follows the code.
- A retry stores status PENDING while the task is already in the retry queue, so PENDING does not mean that a task waits
  for its dependencies; `in_degree` does.
- The factory leaves `max_retries` at 0, which the column default turns into 3 when the row is stored
  (internal/domain/task.go:32). The protocol proofs hold for every limit.
- A workflow with a cycle, a dangling or a duplicate dependency is accepted and then never finishes
  (`Kahn.StuckWorkflowNeverCompletes`), unless a task that can run fails, and then it is FAILED
  (`Evaluation.VerdictIsEvaluated`). The HTTP binding demands at least one task (internal/api/dto/request.go:15); only a
  direct caller of `SubmitWorkflow` could store a workflow without any, and it would stay RUNNING
  (`Projection.EmptyWorkflowStaysRunning`).
- A request that repeats a `ref_id` is accepted; what may follow is said above.
- The completion check runs only after an event that readied nobody (internal/coordinator/coordinator.go:105-110), and
  `UpdateStatus` alone would let FAILED overwrite COMPLETED
  (internal/core/postgres/repository/workflow_repository_impl.go:59-74). Neither matters: `Confluence.FinalVerdict` and `Reachability.RunEvolves`.

## Model

Rows of `Order`, `Kahn`, `Outcome`, `Confluence`, `Evaluation` and `Unregistered` speak of balanced requests, except
`Kahn.QuiescentTask`, `Confluence.FinalVerdict` and `Unregistered.StumbleBreaks`. All rows about runs but those of
`RetryBound`, `UnknownActions`, `Unregistered`, `LateSubmission`, `Intake`, `Server` and `Faults` assume registered
actions and no stray queue entries; those of `LateSubmission`, `Intake` and `Server` assume the latter only, unless they
say more; "when nothing can move" assumes reliable delivery and a thread on each queue.

| member | source | states |
|---|---|---|
| Confluence.Confluent | internal/coordinator/coordinator.go:51-67 | Any two reliable runs of the same workflows that can go no further agree on every task: status, retry count, version, in-degree, skip hint and number of executions; only the worker id may differ. |
| Evaluation.MatchesEvaluation | internal/worker/worker.go:40-75 | On any dependency lists, when nothing can move: every task that the lists let run has the status of the recursive evaluation (SKIPPED below a parent that did not complete, else COMPLETED if some attempt within the limit succeeds, else FAILED), and every other task is PENDING. |
| Evaluation.VerdictIsEvaluated | internal/coordinator/coordinator.go:71-183 | On any dependency lists, when nothing can move, a non-empty workflow is COMPLETED if all its tasks can run and evaluate to COMPLETED, FAILED if one that can run evaluates to FAILED, else RUNNING: the verdict is a function of the request and the handlers' answers. |
| Evaluation.LoggedEvaluates | internal/worker/worker.go:52-75 | In every reachable state, losses included, each resolved task already has the status of the recursive evaluation. |
| Evaluation.AllRunIffWellFormed | internal/mapper/workflow_mapper.go:26-46 | The dependency lists of a balanced request let all tasks of a workflow run if and only if it is a DAG without dangling or duplicate dependencies. |
| Evaluation.WellFormedEvaluates | internal/worker/worker.go:40-75 | In a well-formed workflow, when nothing can move, every task has the status of the recursive evaluation of its workflow. So there is no deadlock. |
| Confluence.FinalVerdict | internal/coordinator/coordinator.go:105-139 | Whatever the request says, when nothing can move, a non-empty workflow is COMPLETED exactly when all its tasks are, FAILED exactly when one failed, else RUNNING: checking only after events that readied nobody misses no completion. |
| Evaluation.WellFormedVerdict | internal/coordinator/coordinator.go:71-183 | A non-empty well-formed workflow ends COMPLETED if every task evaluates to COMPLETED, otherwise FAILED with a FAILED task in the table. |
| Confluence.ConfluentVerdicts | internal/coordinator/coordinator.go:113-139 | Two runs that can go no further give each non-empty workflow the same verdict. |
| Evaluation.ResolvedEvaluates | internal/worker/worker.go:52-75 | If a set of tasks was resolved together with all resolved parents of its members, each member has the status of the recursive evaluation over that set. |
| Evaluation.RankDoesNotMatter | internal/coordinator/coordinator.go:80-96 | The recursive evaluation does not depend on the order used to define it. |
| Evaluation.LeastClosedIsRanked | internal/coordinator/coordinator.go:80-96 | What a balanced request lets run can be ranked, parents first; a fact about the lists alone. |
| Evaluation.UntaintedRow | internal/worker/worker.go:173-184 | A finished row was skipped exactly when its skip hint is set, and otherwise completed exactly when some attempt within the limit succeeds. |
| Kahn.ResolvedIsLeastClosed | internal/core/postgres/repository/task_repository_impl.go:202-241 | In a balanced request with arbitrary dependency lists, the tasks resolved when nothing can move are exactly the least set closed under "the list is duplicate-free and all its members are resolved". |
| Kahn.AllResolvedIffWellFormed | internal/mapper/workflow_mapper.go:26-46 | A workflow has all its tasks resolved when nothing can move if and only if it is a DAG without dangling or duplicate dependencies. |
| Kahn.StuckWorkflowNeverCompletes | internal/core/postgres/repository/task_repository_impl.go:285-303 | A task outside some closed set stays PENDING and unclaimed, and its workflow is never COMPLETED, losses included. |
| Kahn.LogIsTopological | internal/coordinator/coordinator.go:80-96 | At every moment, losses included, the log of resolved tasks has no duplicate, every dependency of a logged task names a task logged before it, and no parent is logged after its child. |
| Kahn.QuiescentTask | internal/coordinator/coordinator.go:51-67 | When only blocked pops remain, a task was resolved if and only if its in-degree is 0. |
| Reachability.TokenConservation | internal/coordinator/coordinator.go:88-96 | Whatever the request's references and lists say, losses included: no task is in two queues, twice in one, queued while held, or announced by two events. |
| Reachability.NoTaskIsLost | internal/service/workflow_service.go:53-72 | With reliable delivery a task is at some place if and only if it no longer waits for a dependency. |
| Reachability.InDegreeTally | internal/core/postgres/repository/task_repository_impl.go:202-241 | Whatever the request says, losses included: `in_degree` is the length of the dependency list less the number of parents already resolved. |
| RepeatedReferences.InDegreeFormula | internal/core/postgres/repository/task_repository_impl.go:202-241 | Where listed references can be told apart among the tasks that can run: `in_degree` is the length of the list less the distinct dependencies already resolved; it is never negative, and 0 exactly when the list is duplicate-free and fully resolved; losses included. |
| Reachability.SkipHintMeaning | internal/core/postgres/repository/task_repository_impl.go:243-283 | A task's `skip_hint` is set if and only if a resolved parent ended without completing; losses included. |
| Outcome.FetchedHint | internal/worker/worker.go:52-55 | In every reachable state, losses included, the skip hint a worker fetched is set if and only if some parent's row is FAILED or SKIPPED, on the first attempt and on every retry. |
| Reachability.VersionAccounting | internal/core/postgres/repository/task_repository_impl.go:73-100 | version is 2+2·retries while RUNNING, COMPLETED or FAILED and 1+2·retries otherwise; it is 1 + claims + retries; a task is claimed at most max_retries+1 times. |
| Order.SkippedNeverClaimed | internal/worker/worker.go:52-55 | In a balanced request no SKIPPED task was ever claimed. |
| Reachability.RunEvolves | internal/core/postgres/repository/workflow_repository_impl.go:59-74 | Along any run, losses included: given verdicts are final, finished rows keep all but counter and hint, in-degrees only fall, and released tasks stay released. |
| Order.RunSettles | internal/core/postgres/repository/task_repository_impl.go:113-172 | Along any run of balanced requests, losses included: finished rows are final, and the counter and the skip hint of a released task are frozen. |
| Reachability.VerdictIsSound | internal/coordinator/coordinator.go:113-139 | COMPLETED implies that every task is COMPLETED, FAILED that some task is FAILED; losses included. |
| RepeatedReferences.DependencyOrderExactly | internal/coordinator/coordinator.go:80-96 | For stored workflows with registered actions and a thread on each queue, whatever is lost and whatever the handlers answer: every released task has all its dependencies resolved, and all its parents that can run, in every reachable state, if and only if no task has more parents that can run than its list is long, and as many only if it can run itself. |
| Outcome.DependencySafety | internal/worker/worker.go:57-74 | Once a task has been claimed, all its transitive ancestors are COMPLETED, losses included; ancestors are taken in what a balanced request lets run, or in any closed set whose listed references can be told apart (with unique references, all tasks). |
| Outcome.FailureCone | internal/worker/worker.go:101-122 | A finished task is SKIPPED if and only if a strict ancestor is FAILED, so failed tasks never lie above one another, losses included; ancestors are taken in a closed set as above. |
| Closure.LeastClosedExists | internal/mapper/workflow_mapper.go:26-46 | Whatever the dependency lists say (cycles, dangling and duplicate entries included), there is a least set of tasks closed under unlocking. |
| Closure.UniqueIsOrderly | internal/mapper/workflow_mapper.go:13-46 | With unique references the request is balanced, and the set of all tasks is such a closed set. |
| Closure.ToldApartIsBalanced | internal/mapper/workflow_mapper.go:26-46 | If no two tasks that can run share a listed reference, the request is balanced. |
| Outcome.SameLogged | internal/worker/worker.go:40-75 | Two states that resolved the same tasks agree on all their rows, whatever the order. |
| Termination.RunsAreBounded | internal/worker/worker.go:173-202 | Whatever the request says, every run of n tasks with at most r retries each has at most 12·n·(r+1) steps, losses included. |
| Termination.StepDrops | internal/worker/worker.go:187-202 | Each step strictly lowers the sum of what the tasks can still cause. |
| Progress.ReachesQuiescence | internal/coordinator/coordinator.go:36-68 | Every run, whatever was lost in it, can be continued without loss to a state in which nothing can move. |
| Progress.EntersMainQueueOnce | internal/worker/worker.go:187-202 | A task that has left the main queue never enters it again: retries go to the retry queue, and the submitter's and the coordinator's pushes never overlap. |
| RetryBound.RetriesAreBounded | internal/core/postgres/repository/task_repository_impl.go:174-200 | With duplicate and stray queue entries, stale snapshots, losses and unknown actions: retry_count never exceeds max_retries, and version is 1 + claims + retries. |
| RetryBound.GuardMeansFresh | internal/worker/worker.go:125-137 | In the same setting a snapshot is never newer than its row, and with an equal version it has the stored retry count. |
| RetryBound.SameVersionMeansUndisturbed | internal/core/postgres/repository/task_repository_impl.go:73-97 | In the same setting, an equal version at two moments of a run means that no claim and no retry of the task happened in between. |
| UnknownActions.UnknownFailsInTheEnd | internal/worker/worker.go:140-160 | Whatever the request says, with nothing lost: when nothing can move, the workflow of every claimed task with an unknown action is FAILED. |
| UnknownActions.UnknownFailsWorkflow | internal/worker/worker.go:140-160 | In every mode, stray entries and losses included: a worker that has gone on to treat an unknown action as an error has made its workflow FAILED. |
| UnknownActions.UnknownNeverCompletes | internal/worker/worker.go:67-70 | In every mode a task with an unknown action is never COMPLETED, and once it was retried its workflow is FAILED. |
| UnknownActions.FailedIsFinal | internal/core/postgres/repository/workflow_repository_impl.go:59-74 | In every mode, along any run, a workflow that is FAILED stays FAILED. |
| OrderIndependence.AnyOrder | internal/core/postgres/repository/task_repository_impl.go:202-283 | Handling the same events in any order gives the same table and releases the same tasks. |
| OrderIndependence.ResolveAllSettles | internal/core/postgres/repository/task_repository_impl.go:202-283 | The row after any list of events in closed form: only the number of hits, and whether one taints, matter. |
| OrderIndependence.ReleasedMeaning | internal/core/postgres/repository/task_repository_impl.go:226-240 | A task is released by a list of events if and only if at least in_degree of them hit it. |
| OrderIndependence.ReleasedOnce | internal/core/postgres/repository/task_repository_impl.go:226-240 | No task is released twice, however often its dependencies are announced. |
| OrderIndependence.ReleasesExactly | internal/core/postgres/repository/task_repository_impl.go:210-217 | Every waiting task is released exactly when all its dependencies were announced, if and only if no reference of a workflow is announced twice. |
| RepeatedReferences.InDegreesExactly | internal/core/postgres/repository/task_repository_impl.go:210-217 | For stored workflows with registered actions and a thread on each queue, whatever the handlers answer: `in_degree` is the list length less the distinct dependencies resolved, in every reachable state, if and only if no two tasks of a workflow that the dependency lists let run share a reference that one of its tasks lists. |
| RepeatedReferences.TwinsUncount | internal/coordinator/coordinator.go:80-85 | Two resolved tasks that share a reference that somebody lists make the column differ from the count of references. |
| EarlyRelease.TwinsReleaseEarly | internal/mapper/workflow_mapper.go:13-46 | The request x, x, y, z with z on [x, y]: a reachable state, nothing lost, in which both x are resolved, z has in-degree 0 and has been run to COMPLETED, y has not been queued, dependency order is broken, and the column is wrong. |
| EarlyRelease.LooseIsBalanced | internal/mapper/workflow_mapper.go:13-46 | The request x, x, w with w on [x, y, z]: references repeat among tasks that can run, and the request is still balanced. |
| OrderIndependence.HitsPermuted | internal/core/postgres/repository/task_repository_impl.go:202-241 | The number of decrements of a row does not depend on the order of the events. |
| Projection.RunProjects | internal/core/postgres/repository/task_repository_impl.go:202-303 | For any run over many workflows, even with coinciding reference ids, there is one run of each workflow alone, with the same kind of losses, that passes in order through what the workflow sees of every state, taking one step or none from each to the next. |
| Projection.ReachableAlone | internal/core/postgres/repository/task_repository_impl.go:202-303 | So what a workflow sees of a reachable state is reachable for that workflow alone. |
| Projection.StepMirrors | internal/coordinator/coordinator.go:57-65 | Each step of the shared system is, in the eyes of one workflow, one step of its own or nothing. |
| Projection.EmptyWorkflowStaysRunning | internal/coordinator/coordinator.go:105-110 | A stored workflow without tasks never gets a verdict. |
| Unregistered.TokensExactly | internal/worker/worker.go:140-160 | For balanced requests, whatever the handlers answer: no task is ever in two places if and only if every task that the dependency lists let run names a registered action. |
| Unregistered.WellFormedTokensExactly | internal/worker/worker.go:140-160 | For balanced requests whose workflows are all well-formed: if and only if every action is registered. |
| Unregistered.StumbleBreaks | internal/worker/worker.go:67-70 | From any state of any run in which a worker owns a task with an unknown action, its next two statements announce the termination of that task while the worker still holds it. |
| Invariant.StepKeeps | internal/coordinator/coordinator.go:36-183 | Whatever the request says, every step except a stray queue entry keeps the general invariant: one place per task, a row that fits its place, the tally and the skip hints. |
| Order.StepKeepsOrder | internal/coordinator/coordinator.go:36-183 | Every step except a stray queue entry also keeps the topological log, exact counters and up-to-date snapshots, provided the event it handles is in order: its task was unlocked and its children still wait. |
| Order.BalancedIsFresh | internal/coordinator/coordinator.go:71-96 | In a balanced request every event is handled in order. |
| Order.InitInv | internal/service/workflow_service.go:29-45 | Freshly stored workflows with their roots about to be pushed satisfy both invariants. |
| Invariant.StepEvolves | internal/core/postgres/repository/task_repository_impl.go:113-172 | No step changes a finished row but for late decrements, although the marks have no guard; counters only fall, retries and versions only grow. |
| Tokens.AdvanceKeepsRow | internal/worker/worker.go:40-240 | A worker's statement on the row it holds keeps version, claims, retries and status consistent and leaves the task where the row says. |
| Verdict.StepKeepsVerdicts | internal/core/postgres/repository/workflow_repository_impl.go:59-74 | A verdict once given stays: FAILED by the guard, COMPLETED because none of the workflow's tasks can fail any more. |
| Delivery.LastEventReadiesNobody | internal/coordinator/coordinator.go:105-110 | The event whose handling leaves all of a workflow's tasks resolved and completed readies no task. |
| Delivery.LastEventIsChecked | internal/coordinator/coordinator.go:105-110 | So after it the coordinator does check for completion. |
| Delivery.StepKeepsFailureSeen | internal/worker/worker.go:205-224 | A FAILED task's workflow is FAILED, except while the worker is between its two statements. |
| Counting.CountMeaning | internal/mapper/workflow_mapper.go:32-32 | The list length less the distinct resolved dependencies is never negative, and 0 exactly when the list is duplicate-free and resolved. |
| Server.Program.constructor | cmd/server/main.go:35-79 | The objects wired as the program wires them, over empty tables and queues: the protocol's initial state without workflows. |
| Server.Program.Submit | internal/api/handler/handler.go:22-42 | From any state the program can be in: the request is accepted if and only if its ids are new; then the program is in a reachable state of the system with exactly the requested workflow added, else nothing changed. |
| Server.Program.WorkerTurn | internal/worker/worker.go:243-261 | A turn of a thread of either pool keeps tables, queues and channels those of a reachable state. |
| Server.Program.CoordinatorTurn | internal/coordinator/coordinator.go:36-68 | A turn of the coordinator on either channel keeps them so, and resolves exactly the event it took. |
| Server.Program.DrainedVerdict | internal/coordinator/coordinator.go:105-139 | When queues and channels are empty, the database holds, for balanced requests with registered actions, the statuses and the verdict that the recursive evaluation gives. |
| Server.Program.DrainedIsQuiescent | cmd/server/main.go:69-76 | When queues and channels are empty nothing is left to do. |
| Intake.SubmissionIsReachable | internal/api/handler/handler.go:22-42 | Submission at any moment of a run, whatever was lost before and whatever the actions: from the tables and main queue of a reachable state, what the handler leaves is the tables and main queue of a reachable state of the system that has the requested workflow, with the request's columns and limit 3, from the start. |
| Intake.StoredAnytime | internal/service/workflow_service.go:29-50 | The same right after storing, before the first root is pushed. |
| Intake.SubmittedMeaning | internal/mapper/workflow_mapper.go:13-46 | For every request with new ids there is such a system: exactly the requested tasks are added, each with the request's columns, and everything else stays. |
| Intake.QueuedRoots | internal/service/workflow_service.go:53-72 | A queue that got the requested tasks without dependencies, each behind as many as come before it in the request, got exactly the protocol's roots in order. |
| Intake.AtMostFourAttempts | internal/domain/task.go:32-32 | A task stored from a request is claimed at most four times, losses included. |
| Intake.FourAttemptsDecide | internal/worker/worker.go:173-184 | A task stored from a balanced request that ended with no parent FAILED or SKIPPED is COMPLETED if one of attempts 0 to 3 succeeds, else FAILED; losses included. |
| LateSubmission.StepWidens | internal/core/postgres/repository/task_repository_impl.go:202-303 | Every step but a stray entry is possible, and does the same, with one more workflow in the tables. |
| LateSubmission.StepStaysKnown | internal/worker/worker.go:77-99 | Without stray entries every id in a queue or a worker's hand and every event in a channel refers to a stored task or workflow, and each channel carries its own kind of event. |
| Refinement.UndisturbedLifecycle | internal/worker/worker.go:40-240 | One undisturbed call on a stored task ends in one of six ways: skipped; completed; put back for retry with the version two up; failed for good with the workflow; and, for an unknown action, either of the last two with one more failure announced and the workflow FAILED in both. |
| Refinement.UnknownActionLifecycle | internal/worker/worker.go:140-224 | A call on an unknown action with the final store written out: the workflow FAILED, one termination announced and the task put back PENDING with the version two up and its id in the retry queue, or, with no retry left, the row FAILED and the termination announced twice. |
| Refinement.KnownActionLifecycle | internal/worker/worker.go:101-240 | The other four endings with the final store written out. |
| Refinement.RetryCall | internal/worker/worker.go:187-202 | A retry with any snapshot on any table: if the row exists with the snapshot's version it is put back and pushed once, otherwise nothing changes and the call is over. |
| Refinement.FailureCall | internal/worker/worker.go:205-224 | A permanent failure with any snapshot marks the row if there is one, fails the workflow and announces, with no guard. |
| Refinement.RefusedCall | internal/worker/worker.go:77-137 | An entry with an unknown id and a claim with an old version change nothing. |
| Refinement.ProcessNextTaskIsARun | internal/worker/worker.go:40-75 | The worker method's contract is a run of the protocol: one pop followed by that worker's statements. |
| Refinement.EventHandlingIsARun | internal/coordinator/coordinator.go:71-183 | The coordinator methods' contract is a run of the protocol: decrement, pushes in the returned order, and the check. |
| Refinement.HandleNextIsARun | internal/coordinator/coordinator.go:51-67 | One turn of the loop, from taking the oldest event of a channel to the check, is a run of the protocol in which exactly the children with in-degree 1 are queued, in the order returned. |
| Refinement.EnqueueIsARun | internal/service/workflow_service.go:53-60 | Pushing all roots is a run of the submitter's steps. |
| Refinement.ServiceRoots | internal/service/workflow_service.go:63-72 | The service's roots are the protocol's: the tasks without dependencies, in request order. |
| Faults.SubmissionMayFail | internal/service/workflow_service.go:53-60 | In lossy runs a submitter's push may fail after any number of successful ones, and then exactly the roots before it were queued and none after it ever will be. |
| Faults.PushesMayFail | internal/coordinator/coordinator.go:88-103 | Any of the coordinator's pushes may fail, each costs one task, and the others arrive in order. |
| Faults.WorkerMayStop | internal/worker/worker.go:40-75 | In any reachable state a busy worker may stop where it is, whatever its program point. |
| Faults.CoordinatorMayStop | internal/coordinator/coordinator.go:51-67 | So may the coordinator, at any point of handling an event. |
| Faults.EventMayVanish | internal/infrastructure/redis/event_bus.go:62-122 | Any event in either channel may vanish; the others keep their order. |
| Faults.StrayMayAppear | internal/infrastructure/redis/queue.go:24-33 | In chaotic runs any id may appear in either queue. |
| Faults.AnyWorkerMayMove | internal/worker/worker.go:243-261 | An idle worker may pop from its queue and a busy one take its next statement in any reachable state. |
| Faults.AnySubmitterMayMove | internal/service/workflow_service.go:53-60 | A submitter may push its next root in any reachable state. |
| Faults.CoordinatorMayMove | internal/coordinator/coordinator.go:51-139 | The coordinator may take from either channel, handle the returned rows in any order, and between counting and writing the verdict anything may happen. |
| Faults.StepsAreAtomic | internal/worker/worker.go:101-240 | No step changes two of: the task table, the verdicts, the two queues, the two channels. |
| Repositories.InsertedMeaning | internal/core/postgres/repository/task_repository_impl.go:24-54 | Storing adds exactly the given tasks and leaves every other row alone. |
| Repositories.TaskRepository.CreateExecution | internal/core/postgres/repository/task_repository_impl.go:24-54 | Succeeds if and only if the execution's and all tasks' ids are unused and the tasks' are distinct; then the execution is RUNNING and each task is stored as given, a zero retry limit as 3, and no other row changes; otherwise nothing does. |
| Repositories.TaskRepository.FindTaskByID | internal/core/postgres/repository/task_repository_impl.go:56-71 | The current row, or none when the id is unknown. |
| Repositories.TaskRepository.ClaimTask | internal/core/postgres/repository/task_repository_impl.go:73-100 | Succeeds if and only if the row exists with the given version; then it is RUNNING, owned, one version up; nothing else changes. |
| Repositories.TaskRepository.IncrementRetryCount | internal/core/postgres/repository/task_repository_impl.go:174-200 | Succeeds if and only if the row exists with the given version; then one more retry, PENDING, one version up. |
| Repositories.TaskRepository.Mark | internal/core/postgres/repository/task_repository_impl.go:113-172 | Sets the status with no guard and touches neither version nor counters. |
| Repositories.TaskRepository.UpdateChildren | internal/core/postgres/repository/task_repository_impl.go:210-217 | Updating row by row in any order equals the set-level decrement, and returns each changed row once with its new in-degree. |
| Repositories.TaskRepository.CollectReady | internal/core/postgres/repository/task_repository_impl.go:226-240 | Exactly the returned ids with in-degree 0, each once. |
| Repositories.TaskRepository.DecrementAndGetReadyTasks | internal/core/postgres/repository/task_repository_impl.go:202-241 | Decrements every row of the execution that lists the reference, queues those that reach 0 and returns exactly these, each once. |
| Repositories.TaskRepository.DecrementAndSetSkipHint | internal/core/postgres/repository/task_repository_impl.go:243-283 | The same, and taints every row it decrements. |
| Repositories.TaskRepository.AreAllTasksCompleted | internal/core/postgres/repository/task_repository_impl.go:285-303 | The count of rows not COMPLETED is 0 if and only if every task of the execution is COMPLETED. |
| Repositories.WorkflowRepository.UpdateStatus | internal/core/postgres/repository/workflow_repository_impl.go:59-74 | Writes a different status unless the workflow is FAILED. |
| Messaging.RedisQueue.Push | internal/infrastructure/redis/queue.go:24-33 | Appends at the end of the list. |
| Messaging.RedisQueue.Pop | internal/infrastructure/redis/queue.go:36-49 | Takes from the front; nothing while the list is empty. |
| Messaging.EventBus.PublishTaskCompleted | internal/infrastructure/redis/event_bus.go:27-42 | Appends to the completed channel only. |
| Messaging.EventBus.PublishTaskTerminated | internal/infrastructure/redis/event_bus.go:45-59 | Appends to the terminated channel only. |
| Messaging.EventBus.Receive | internal/infrastructure/redis/event_bus.go:62-122 | Hands over the oldest event of the chosen channel and leaves the other channel alone. |
| Submission.ToTask | internal/mapper/workflow_mapper.go:26-46 | The mapped task column by column: the request's reference, action and dependency list, in-degree its length, QUEUED if it is empty and else PENDING, version 1. |
| Submission.ToWorkflowExecution | internal/mapper/workflow_mapper.go:13-23 | One mapped task per requested task, in order, column by column. |
| Submission.StoredIsInitial | internal/domain/task.go:32-32 | The stored row is the protocol's initial row with retry limit 3. |
| Submission.WorkflowService.SubmitWorkflow | internal/service/workflow_service.go:29-45 | Succeeds if and only if all ids are new; then the workflow is stored and the tasks with in-degree 0 stand behind the old queue, each behind as many as come before it; otherwise nothing changes. |
| Submission.WorkflowService.GetRootTasks | internal/service/workflow_service.go:63-72 | Exactly the tasks with in-degree 0, each at the position given by how many come before it. |
| Submission.WorkflowService.EnqueueRootTasks | internal/service/workflow_service.go:53-60 | The queue keeps what it had, and root i stands at position old length + i. |
| Submission.WorkflowHandler.SubmitWorkflow | internal/api/handler/handler.go:22-42 | From request to tables and queue: accepted if and only if all generated ids are new; then each row has the request's columns with limit 3, QUEUED or PENDING by its list, and the tasks without dependencies are queued in request order; otherwise nothing changes. |
| WorkerPool.Worker.ProcessNextTask | internal/worker/worker.go:40-75 | Pops one id and leaves tables, retry queue and channels as the worker's program leaves them; nothing changes on an empty queue; also when the worker's queue is the retry queue. |
| WorkerPool.Worker.HandleSkippedTask | internal/worker/worker.go:101-122 | The row becomes SKIPPED and one skipped-termination is announced; this is what the program does from a fetched, tainted task. |
| WorkerPool.Worker.ClaimTask | internal/worker/worker.go:125-137 | Succeeds if and only if the row has the snapshot's version; then the row is RUNNING and the snapshot's version follows it; on failure nothing changed and the call is over. |
| WorkerPool.Worker.ExecuteTaskAction | internal/worker/worker.go:140-170 | Succeeds if and only if the action is registered and its handler succeeds; a registered action changes nothing here; an unknown one has its row FAILED, its termination announced once and its workflow FAILED. |
| WorkerPool.Worker.HandleTaskFailure | internal/worker/worker.go:173-184 | Below the limit a guarded retry, at the limit a permanent failure, with the outcome of either written out. |
| WorkerPool.Worker.RetryTask | internal/worker/worker.go:187-202 | If the row has the snapshot's version it is put back with one more retry and its id is pushed once; otherwise nothing changes. |
| WorkerPool.Worker.MarkTaskFailedPermanently | internal/worker/worker.go:205-224 | Row FAILED, workflow FAILED, one failed-termination announced; the same as the program's three statements. |
| WorkerPool.Worker.HandleTaskSuccess | internal/worker/worker.go:227-240 | Row COMPLETED and one completion announced; the same as the program's two statements. |
| CoordinatorLoop.Coordinator.HandleNext | internal/coordinator/coordinator.go:36-68 | One turn of the select loop: the oldest event of the chosen channel is taken and handled; nothing changes when there is none. |
| CoordinatorLoop.Coordinator.HandleTaskCompleted | internal/coordinator/coordinator.go:71-111 | Row by row: each task of the execution that lists the reference loses one in-degree and is QUEUED at 0; exactly those are queued, once each; COMPLETED is written only if none was and all tasks are COMPLETED, and never over FAILED. |
| CoordinatorLoop.Coordinator.HandleTaskTerminated | internal/coordinator/coordinator.go:143-183 | The same with the skip hint set on each changed row, and no verdict. |
| CoordinatorLoop.Coordinator.CheckIfWorkflowFinished | internal/coordinator/coordinator.go:113-140 | COMPLETED is written if and only if all tasks are COMPLETED and the guard allows it. |

## Left out

- Database errors: every statement succeeds and is atomic. `handleTaskSuccess` publishes even when `MarkCompleted` failed (internal/worker/worker.go:227-240); that path is not modelled.
- The columns nothing in the protocol reads: output, last error, timestamps, and the error text of a termination event.
- jsonb matching with `@>` is membership in a list of references; encoding of events and of reference names is not modelled.
- Redis subscriptions and their goroutines (internal/infrastructure/redis/event_bus.go:62-122): a channel is a sequence from which events may vanish.
- The infinite loops of `StartPool` and `Coordinator.Start`: one turn is a method, and the protocol takes turns for ever in any order.
- Scheduling fairness: a run may stop anywhere; what is proved is that every run is finite and can be continued to the end.
- Request binding and HTTP statuses (a push that fails after storing answers with an error although the workflow is stored), UUID generation (ids are parameters), middleware, metrics, logging and the action handlers' own bodies.
- `FindChildren`, `GetByID`, `Create` and the PAUSED status: nothing on the execution path uses them.
- Interference with a class method: the classes, and `Server.Program`, are proved for undisturbed calls; interleavings of their statements are the protocol's business. `Server.Program` has one thread of each pool; the protocol has any number.
- Submission.WorkflowService.EnqueueRootTasks: its pushes always succeed; a failed push is the protocol step `SubmitFails`.
- CoordinatorLoop.Coordinator.PushAll: its pushes always succeed; a failed push is the protocol step `CoordinatorPushFails`.
- Protocol.Registered: results that require it say nothing about workflows with unknown actions beyond `Unregistered`, `UnknownActions` and `RetryBound`.
- Closure.Orderly: results of the second layer say nothing about requests that are not balanced beyond `RepeatedReferences` and `EarlyRelease`.
