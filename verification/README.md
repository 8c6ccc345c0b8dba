# TROPEK verification models

Dafny models of the parts of TROPEK that are hardest to get right, with proofs about them. `dafny verify dfyconfig.toml`
checks everything. The modules follow the repository's components:

- **Prometheus adapter jobs** (`RedisJobs`, `JobProtocol`, `JobInvariants`, `JobPreservation`, `JobLifeCycle`, `JobTheorems`,
  `JobExamples`, `JobRepositories`). Submitters, cancellers, any number of coordinators, query tasks and polling readers share one Redis. One
  step is one Redis command or one strategy execution, and every process has a program counter, so the runs are all
  interleavings at the awaits. `history` records what was done to a job and is read by no step. The classes run the same commands without
  interleaving.
- **Manifest reconciler** (`ManifestKinds`, `ManifestDocuments`, `ManifestApply`, `ManifestServer`, `ManifestConvergence`). The
  loop of `apply` is proved for any per-document reconciliation; convergence is proved for SLI, SLO and SLOAssignment
  documents against versioned definitions and version-pinned assignment rows.
- **Chart note labels** (`LabelPacking`, `LabelExamples`, `LabelClipping`). First-fit packing into rows, clamping, and the binary search that clips a text.
- **Deadlock retry under the session middleware** (`DeadlockRetry`). Transactions over a shared database that other requests also change.
- **Asset groups** (`AssetGroups`). Descendant collection, cascading delete and the top level over the link table.
- **Evaluation jobs** (`EvaluationRows`, `EvaluationProtocol`, `EvaluationTheorems`). Trigger, deferral, crashes and the
  stuck-job watchdog. Assumed: a queue entry is delivered at most once, a row is found stuck only when its job is dead (the
  threshold exceeds the job timeout), and watchdog ticks do not overlap. That `mark_running` keeps the retry count and that
  terminal statuses are not left is not assumed: the first is in the model of the write, the second is a theorem.
- **Time range in the URL** (`TimeRange`, over `Decimals`) and **query variables** (`VariableSubstitution`).

What the proofs brought up, each stated by a lemma below:

- A cancel that answers success is lost when it lands between a coordinator's check and its write; it is final exactly outside
  those two windows, and runs from the empty Redis reach both.
- A query specification whose mode is a list or an object cannot be looked up: its task raises before it writes anything, the
  exception is gathered and dropped, and the job is completed without a result for the query. A query is answered exactly when its
  mode has a hash. An answered query can still leave no result: when its strategy returns an empty mapping.
- An apply comes to rest exactly on documents that settle. What keeps planning an operation for ever: an objective without a
  threshold list (the client compares null with the server's empty list), an SLI document with a blank `indicators:` (null is
  compared with an empty mapping), a quoted total score (a text is compared with the number it was read as), and a name that the
  lookup does not reach (a slash in an SLI name, an SLO name ending in `/versions`, the names of fixed routes).
- Repointing a stale assignment fails exactly for groups. An edit is seen exactly when it changes the normal objectives, a total
  score or the comparison; one of change-point settings alone is invisible.
- Label order by centre is not enough for first fit to be optimal: it misses a two-row layout of four labels that a chart can have,
  and staggers five labels over one another that three rows would hold.
- A handler that turned a non-database exception into a success reply would commit half an operation; none does.
- `add_subgroup` accepts links that make a cycle; the groups on it leave the top level and their deletion does not end.
- The guard against processing an evaluation twice runs after the row was marked running, so it never fires. A trigger, job or watchdog that
  dies while the row is pending leaves it pending for ever.
- An absolute instant with eight digits, or before 1970, does not survive the URL.

## Model

| member | source | states |
|---|---|---|
| JobTheorems.JobIsInOnePlace | adapters/prometheus/tropek_prometheus/core/coordinator.py:107-157 | in every interleaving a created job is with one submitter, once in the queue, with one coordinator, or finished |
| JobTheorems.JobIsDequeuedOnce | adapters/prometheus/tropek_prometheus/redis/repository.py:185-192 | a job is taken from the queue at most once, and has been exactly when a coordinator holds it or it is finished |
| JobTheorems.CompletionIsFull | adapters/prometheus/tropek_prometheus/core/coordinator.py:119-152 | when 'completed' is written, a query has been answered if and only if its mode can be looked up, none was skipped, Redis holds exactly what they wrote, and every write is counted |
| JobTheorems.AnsweredHasResult | adapters/prometheus/tropek_prometheus/core/coordinator.py:94-102 | an answered query has a stored result unless its strategy returned an empty mapping |
| JobTheorems.SettledHoldsResults | adapters/prometheus/tropek_prometheus/core/coordinator.py:55-105 | once all tasks of a job have ended, its result hash is exactly what they wrote; the answered queries are those with a hashable mode, the escaped tasks the others |
| JobTheorems.OnlyWriterWins | adapters/prometheus/tropek_prometheus/redis/repository.py:107-130 | a result name written once holds that very result |
| JobTheorems.ReaderGetsEverything | adapters/prometheus/tropek_prometheus/core/job_manager.py:51-77 | a reader that saw 'completed' and then reads gets every result of every query with a hashable mode, whatever cancels and writes come in between |
| JobTheorems.ProgressIsExact | adapters/prometheus/tropek_prometheus/redis/repository.py:107-130 | at every moment completed plus failed plus writes not yet counted equals the writes made, and bounds the stored results |
| JobTheorems.ResultsAtMostWrites | adapters/prometheus/tropek_prometheus/redis/repository.py:126-130 | there are never more stored results than writes |
| JobTheorems.SingleValueProgress | adapters/prometheus/tropek_prometheus/core/job_manager.py:62-67 | with single-value strategies the counters never pass total_queries, and once all tasks have ended they meet it if and only if every mode is hashable |
| JobTheorems.FinishedJobStaysTerminal | adapters/prometheus/tropek_prometheus/core/coordinator.py:149-157 | from the return of process_one on, the status is 'completed' or 'cancelled' in all later states |
| JobTheorems.CancelOverwrittenInWindow | adapters/prometheus/tropek_prometheus/core/coordinator.py:114-119 | 'cancelled' is overwritten exactly by the holder's mark_running or mark_completed, and only inside the two windows |
| JobTheorems.CancelIsFinalIffOutsideWindows | adapters/prometheus/tropek_prometheus/core/coordinator.py:150-152 | a cancelled job stays cancelled in every continuation if and only if no coordinator is inside a window with it |
| JobTheorems.CancelCanBeLost | adapters/prometheus/tropek_prometheus/redis/repository.py:177-183 | from any state with a freshly dequeued job, four steps make a cancel succeed and the job run |
| JobExamples.CancelIsLostBeforeRunning | adapters/prometheus/tropek_prometheus/core/coordinator.py:113-119 | a run from the empty Redis reaches a cancelled job that the next step marks running |
| JobExamples.CancelIsLostBeforeCompleting | adapters/prometheus/tropek_prometheus/core/coordinator.py:149-152 | a run from the empty Redis reaches a cancelled job that the next step marks completed |
| JobExamples.UnhashableModeHasNoAnswer | adapters/prometheus/tropek_prometheus/core/coordinator.py:54-55 | for every query with such a mode, a run from the empty Redis ends with the job completed and a reader that got no result for it |
| JobTheorems.EarlyCancelNeverRuns | adapters/prometheus/tropek_prometheus/core/coordinator.py:113-117 | a job cancelled before its dequeue check stays cancelled, runs no strategy and gets no result |
| JobTheorems.QueueDepthBound | adapters/prometheus/tropek_prometheus/core/job_manager.py:31-41 | N concurrent submitters can overshoot the depth limit by at most N - 1 |
| JobPreservation.StepKeepsInvariant | adapters/prometheus/tropek_prometheus/core/coordinator.py:31-157 | each of the 22 steps keeps the protocol's invariant |
| JobPreservation.RunKeepsInvariant | adapters/prometheus/tropek_prometheus/core/coordinator.py:159-171 | the invariant holds in every state of every run |
| JobLifeCycle.StepFollowsLifeCycle | adapters/prometheus/tropek_prometheus/redis/repository.py:99-183 | whatever step is taken, each job stays or moves along one edge of its life cycle |
| JobRepositories.JobRepository.CreateJob | adapters/prometheus/tropek_prometheus/redis/repository.py:35-64 | the job is queued with counters at zero and a total of its queries, the queries read back as given, and results and the queue are as before |
| JobRepositories.JobRepository.WriteResult | adapters/prometheus/tropek_prometheus/redis/repository.py:107-130 | the name holds the result, exactly the counter of its success is one higher, and status, total, other names, other jobs, queries and queue are as before |
| JobRepositories.WriteIsApplied | adapters/prometheus/tropek_prometheus/redis/repository.py:126-130 | those parts of the effect determine the whole new state: it is the store followed by the count |
| JobRepositories.JobRepository.Cancel | adapters/prometheus/tropek_prometheus/redis/repository.py:177-183 | false, changing nothing, exactly on a terminal status; otherwise the status is 'cancelled' |
| JobRepositories.JobRepository.Dequeue | adapters/prometheus/tropek_prometheus/redis/repository.py:189-192 | the head of the queue, or None and no change |
| JobRepositories.JobManager.Submit | adapters/prometheus/tropek_prometheus/core/job_manager.py:22-49 | refuses exactly at the depth limit, changing nothing; otherwise a queued job at the queue's tail |
| JobRepositories.JobCoordinator.RunQuery | adapters/prometheus/tropek_prometheus/core/coordinator.py:31-105 | an exception leaves the task exactly when the mode has no hash, and then nothing is written; otherwise the query's outputs in order, or nothing when the job is cancelled; an unsupported mode is reported without that check |
| JobRepositories.JobCoordinator.ProcessOne | adapters/prometheus/tropek_prometheus/core/coordinator.py:107-157 | skips a missing or cancelled job, and otherwise leaves what marking running, all writes and marking completed leave |
| JobRepositories.AppliedCounts | adapters/prometheus/tropek_prometheus/redis/repository.py:127-130 | a list of writes raises 'completed' by its number of successes and 'failed' by the others |
| JobRepositories.LastWriteWins | adapters/prometheus/tropek_prometheus/redis/repository.py:126 | of several writes of a name the last stays |
| JobRepositories.UnwrittenStays | adapters/prometheus/tropek_prometheus/redis/repository.py:126 | a name that is not written keeps what it had |
| JobRepositories.ProcessedJobIsComplete | adapters/prometheus/tropek_prometheus/core/coordinator.py:119-152 | an uninterrupted job ends completed and fully counted, other jobs untouched |
| JobRepositories.ProcessedJobHasResults | adapters/prometheus/tropek_prometheus/core/coordinator.py:131-144 | every output of every query has a result |
| JobRepositories.AssembleAnswer | adapters/prometheus/tropek_prometheus/api/routes.py:118-126 | every result is a key of values, failed ones with null and exactly those in errors with their message |
| JobRepositories.ReaderIsAnswered | adapters/prometheus/tropek_prometheus/api/routes.py:96-126 | in every interleaving, the answer of a reader that saw 'completed' has a value for every output of every query with a hashable mode, nothing that no query wrote, and exactly the failures as errors |
| ManifestKinds.DependentsOf | clients/python/tropek_client/manifest.py:309-319 | the stack walk ends with exactly the kinds that depend on the given one, directly or not |
| ManifestKinds.DependentsComeLater | clients/python/tropek_client/manifest.py:35-47 | a kind's dependents come after it in the processing order |
| ManifestDocuments.TopologicalSortIsStable | clients/python/tropek_client/manifest.py:134-143 | the sort orders by kind, is a permutation, and keeps file order within a kind |
| ManifestApply.ManifestClient.Apply | clients/python/tropek_client/manifest.py:251-296 | the loop leaves the specified server and tally; the four counts add up to the documents and failures to the errors |
| ManifestApply.TallyConserves | clients/python/tropek_client/manifest.py:269-296 | every document is counted once, every failure has one error |
| ManifestApply.BlockedIffDependencyFailed | clients/python/tropek_client/manifest.py:272-294 | on sorted input a document is blocked if and only if one of a kind it depends on failed |
| ManifestApply.CallsAreUnblocked | clients/python/tropek_client/manifest.py:274-279 | the documents that reach the server are exactly the unblocked ones, each once, in order |
| ManifestServer.DryRun | clients/python/tropek_client/manifest.py:218-248 | every document is planned against the same unchanged server |
| ManifestConvergence.NormalFormsAgree | clients/python/tropek_client/manifest.py:444-469 | stored objectives equal the manifest's under normalization if and only if every threshold list is spelled out |
| ManifestConvergence.ChangePointEditIsInvisible | clients/python/tropek_client/manifest.py:436-468 | editing only change-point blocks does not change the diff |
| ManifestConvergence.EditIsSeenIff | clients/python/tropek_client/manifest.py:518-533 | after a diff at rest, an edited document differs if and only if the normal objectives, one of the total scores or the comparison changed |
| ManifestConvergence.RepointFailsIffGroup | clients/python/tropek_client/manifest.py:791-820 | repointing a stale assignment fails if and only if its target is a group, and then changes nothing |
| ManifestConvergence.ReconcileReaches | clients/python/tropek_client/manifest.py:278-288 | after a document that did not fail, lookup and diff find it as it asks if and only if it settles, and its outcome tells what they found before |
| ManifestConvergence.ReconcileOnlyTouches | clients/python/tropek_client/manifest.py:717-899 | a document's reconciliation changes the entity of its key and no other |
| ManifestConvergence.ApplyPinsToLatest | clients/python/tropek_client/manifest.py:534-549 | after a failure-free apply every assignment is pinned to the latest definition of its SLO |
| ManifestConvergence.DryRunAfterApply | clients/python/tropek_client/manifest.py:218-248 | a dry run after a failure-free apply plans only SKIP if and only if every document settles: its name can be looked up, indicators are not null, threshold lists are spelled out, total scores unquoted |
| ManifestConvergence.SecondApply | clients/python/tropek_client/manifest.py:254-267 | a second apply skips everything if and only if every document settles, and then leaves the server as it was |
| ManifestConvergence.SameSettles | clients/python/tropek_client/manifest.py:514-533 | whatever the server holds, only a document that settles is ever found the same |
| ManifestConvergence.UnsettledDocuments | clients/python/tropek_client/manifest.py:514-533 | a blank indicators key, a slash in an SLI name and a quoted score: applied to an empty server each is created, and planned again |
| ManifestConvergence.DryRunForetellsApply | clients/python/tropek_client/manifest.py:218-296 | a failure-free apply does what the dry run said, except that an assignment whose SLO the run renewed is updated instead of skipped |
| LabelPacking.TryPack | ui/src/lib/chartAnnotations.ts:224-242 | the loops over the array of right edges compute first fit |
| LabelPacking.FirstFitMeans | ui/src/lib/chartAnnotations.ts:231-237 | first fit is the lowest row with the gap, and None exactly when no row has it |
| LabelPacking.PackIsLayout | ui/src/lib/chartAnnotations.ts:221-242 | for any order, same-row labels of a successful packing are at least 2px apart |
| LabelPacking.PackIffFeasible | ui/src/lib/chartAnnotations.ts:221-242 | for labels in left-edge order, first fit succeeds if and only if some layout of that many rows exists |
| LabelExamples.LabelsAreReal | ui/src/lib/chartAnnotations.ts:147-214 | five notes on a chart of 1001 points, placed and clamped as the code does and measured by its fallback, have the positions and widths of the two examples |
| LabelExamples.CentreOrderIsNotEnough | ui/src/lib/chartAnnotations.ts:228-240 | four such labels, in the order of their points, fit two rows, and first fit does not place them there |
| LabelExamples.StaggerThoughThreeRowsSuffice | ui/src/lib/chartAnnotations.ts:247-253 | five such labels fit three rows, but the code settles on the stagger, which puts two of them over one another |
| LabelPacking.OneMoreRow | ui/src/lib/chartAnnotations.ts:224-242 | with one more row a packing stays the same |
| LabelPacking.UnusedRow | ui/src/lib/chartAnnotations.ts:224-242 | a packing that leaves its last row empty is the packing with one row fewer |
| LabelPacking.EnoughRows | ui/src/lib/chartAnnotations.ts:224-242 | as many rows as labels are always enough |
| LabelPacking.PackRows | ui/src/lib/chartAnnotations.ts:247-253 | the result is the packing of the smallest row count that first fit manages, or the stagger when three are too few |
| LabelPacking.PackRowsIsMinimal | ui/src/lib/chartAnnotations.ts:244-253 | in left-edge order the row count is the true minimum, and the stagger is used if and only if three rows are too few |
| LabelPacking.BandMatchesRowCount | ui/src/lib/chartAnnotations.ts:83-86 | the highest used row is the last of the row count settled on, and every pill ends above the plot: by 14px in the last row and 20px more for each row up |
| LabelPacking.PixelXIsMonotone | ui/src/lib/chartAnnotations.ts:200-204 | a later point is never further left |
| LabelPacking.ClampedPillIsInside | ui/src/lib/chartAnnotations.ts:206-214 | a clamped pill is inside the chart with the inset on both sides if and only if it is narrow enough for that |
| LabelPacking.EqualWidthsAreLeftSorted | ui/src/lib/chartAnnotations.ts:267-302 | labels of one width reach packRows in left-edge order |
| LabelClipping.LabelText.MeasureTextPx | ui/src/lib/chartAnnotations.ts:130-145 | the cached measure is the drawing surface's, or five pixels a code unit where there is none |
| LabelClipping.LabelText.ClipLabelText | ui/src/lib/chartAnnotations.ts:182-196 | where longer candidates are not narrower, the binary search finds the longest that fits; with any measure only the one-unit candidate can be too wide |
| LabelClipping.TrimmedPrefixGrows | ui/src/lib/chartAnnotations.ts:191 | a longer prefix never trims to less |
| LabelClipping.FallbackIsMonotone | ui/src/lib/chartAnnotations.ts:142 | the fallback measure meets the binary search's need |
| LabelClipping.LongestFitMeans | ui/src/lib/chartAnnotations.ts:186-194 | the specified length fits and nothing longer does |
| LabelClipping.FitsMeansPillFits | ui/src/lib/chartAnnotations.ts:147-149 | a candidate fits if and only if its pill, rounded up, is within 160px |
| LabelClipping.ClippedLabelFits | ui/src/lib/chartAnnotations.ts:180-196 | every clipped label is within 160px and is not changed by clipping again |
| LabelClipping.ShortTextsStay | ui/src/lib/chartAnnotations.ts:183 | a text is kept whole if and only if it has at most 30 code units |
| LabelClipping.LongText | ui/src/lib/chartAnnotations.ts:186-195 | a longer one becomes its first 29 code units, trimmed, and the ellipsis |
| LabelClipping.EllipsisHidesSomething | ui/src/lib/chartAnnotations.ts:191-195 | the ellipsis stands for nothing if and only if at most 29 code units are left after trimming |
| DeadlockRetry.RunWithDeadlockRetry | api/tropek/db/retry.py:47-86 | only the last attempt's writes count, on what others have committed; at most max_retries + 1 attempts, a rollback before each rerun, the trailing error unreachable |
| DeadlockRetry.Session.Commit | api/tropek/db/middleware.py:43-49 | commits the transaction's view, or nothing when it is aborted or the commit raises |
| DeadlockRetry.SessionMiddleware.Call | api/tropek/db/middleware.py:34-57 | the committed state after a request, for every pattern of deadlocks, errors, replies and interfering transactions |
| DeadlockRetry.AllOrNothingUnlessSwallowed | api/tropek/db/middleware.py:15-20 | the request changes nothing or applies the whole operation once, the latter only for a 2xx reply |
| DeadlockRetry.AllOrNothingIff | api/tropek/db/retry.py:69-74 | that holds for every operation if and only if no non-database exception between two writes is answered with success |
| DeadlockRetry.ErrorRepliesSuffice | api/tropek/modules/quality_gate/router.py:757-882 | it holds for handlers that let the exceptions become error replies |
| DeadlockRetry.BackoffIsBounded | api/tropek/db/retry.py:41-44 | n waits sum to at most n times the cap and at most base times 2^n - 1 |
| DeadlockRetry.SumAtMostGeometric | api/tropek/db/retry.py:43 | the sum of the longest waits is at most the geometric bound, and equals it while the cap is not reached |
| AssetGroups.AssetGroupRepository.CollectSubgroupIds | api/tropek/modules/assets/repository.py:330-340 | where no cycle lies below, the recursion ends with the specified list |
| AssetGroups.CollectedAreDescendants | api/tropek/modules/assets/repository.py:330-340 | the list's members are exactly the proper descendants |
| AssetGroups.CollectionEndsIffNoCycle | api/tropek/modules/assets/repository.py:337-339 | the recursion ends at some depth if and only if no cycle can be reached |
| AssetGroups.AssetGroupRepository.DeleteGroup | api/tropek/modules/assets/repository.py:342-361 | exactly the named group and its descendants go, with their links and members; false and no change when there is none |
| AssetGroups.WithoutMeans | api/tropek/db/models.py:174-175 | the cascade removes exactly the links that touch a removed group |
| AssetGroups.EveryGroupIsInATree | api/tropek/modules/assets/repository.py:376-390 | a group with no cycle above it is top-level or below a top-level group |
| AssetGroups.DeletionKeepsTopLevel | api/tropek/modules/assets/repository.py:357-359 | after a deletion the top level is what it was without the deleted group |
| AssetGroups.SubgroupKeepsAcyclicIff | api/tropek/modules/assets/repository.py:429-448 | a new link keeps the graph acyclic if and only if the child is not the parent or above it |
| AssetGroups.MutualSubgroups | api/tropek/modules/assets/repository.py:444-447 | two groups put into each other leave the top level empty and cannot be collected |
| EvaluationRows.Worker.RunEvaluationJob | api/tropek/queue.py:223-311 | a job defers itself, changing no row, or runs and leaves its row failed, completed or running |
| EvaluationRows.DeduplicationGuardIsDead | api/tropek/modules/quality_gate/workflows/execution/evaluation_executor.py:284-303 | phase 1, as the job runs it, revives every existing row whatever its status, so the guard never stops it |
| EvaluationRows.Worker.WatchdogTick | api/tropek/queue.py:436-478 | the rows, the queue and the two counters after a tick |
| EvaluationRows.SweptRowsMeans | api/tropek/queue.py:459-473 | a tick puts each stuck row back with one more retry or fails it at the limit, and touches no other |
| EvaluationRows.RetriesRunOut | api/tropek/modules/quality_gate/repositories/evaluation.py:256-262 | a job that always dies is failed after exactly the allowed retries |
| EvaluationProtocol.MoveKeeps | api/tropek/queue.py:223-478 | each move of an evaluation leads from its place to the next and keeps the enqueue bound |
| EvaluationTheorems.RunKeepsInv | api/tropek/queue.py:223-478 | the invariant holds in every run with crashes and ticks |
| EvaluationTheorems.EnqueueBound | api/tropek/queue.py:47 | an evaluation is enqueued at most (1 + max_stuck_job_retries) times 61 times |
| EvaluationTheorems.EnqueueBoundIsReached | api/tropek/queue.py:237-247 | for every limit some run reaches that number |
| EvaluationTheorems.OneRunnerAtMost | api/tropek/queue.py:233-251 | at most one entry, job or pending enqueue exists for an evaluation, none once it is terminal |
| EvaluationTheorems.TerminalStays | api/tropek/modules/quality_gate/repositories/evaluation.py:267-330 | a terminal status is never left |
| EvaluationTheorems.OrphansStay | api/tropek/modules/quality_gate/repositories/evaluation.py:404-421 | an evaluation that is not running and has no runner never changes again |
| EvaluationTheorems.LeftPendingExactlyBy | api/tropek/queue.py:472-474 | an evaluation is left pending for good if and only if its only runner dies before the row is running |
| EvaluationTheorems.MovesGetNearer | api/tropek/queue.py:237-247 | each move lowers (retries left, stage left) lexicographically |
| EvaluationTheorems.MovesAreBounded | api/tropek/queue.py:459-475 | however a run goes on, an evaluation makes a bounded number of moves |
| TimeRange.WithTimeParamsLast | ui/src/lib/search-params.ts:6-17 | the other parameters in order, then the first from, then the first to |
| TimeRange.WriteRange | ui/src/lib/time-range-context.tsx:181-190 | the next search parameters are the others and the range |
| TimeRange.WrittenKeepsOthers | ui/src/lib/time-range-context.tsx:183-188 | writing keeps the other parameters in order and is idempotent |
| TimeRange.PresetRoundTrip | ui/src/lib/time-range-context.tsx:116-119 | a preset of any number of days, up to the 2^53 that JavaScript counts exactly, reads back as itself, whatever else is in the URL |
| TimeRange.TokenRoundTrip | ui/src/lib/time-range-context.tsx:87-104 | an instant survives printing and parsing if and only if it is not negative and not eight digits long |
| TimeRange.AbsoluteRoundTrip | ui/src/lib/time-range-context.tsx:162-170 | an absolute range reads back as itself if and only if its instants do |
| TimeRange.DayIsNotItsDigits | ui/src/lib/time-range-context.tsx:93-97 | the calendar reading of eight digits is never the instant they count |
| VariableSubstitution.TokensAreLossless | adapters/prometheus/tropek_prometheus/core/variable_substitutor.py:7 | the scan's pieces joined are the template |
| VariableSubstitution.TokensAreUnique | adapters/prometheus/tropek_prometheus/core/variable_substitutor.py:7 | the scan finds the only maximal-munch reading |
| VariableSubstitution.TokensAreMaximalMunch | adapters/prometheus/tropek_prometheus/core/variable_substitutor.py:7 | the scan's reading is one |
| VariableSubstitution.Substitute | adapters/prometheus/tropek_prometheus/core/variable_substitutor.py:37-63 | precedence of the bindings; an error naming exactly the unbound names if there are any, otherwise the template with each variable replaced |
| VariableSubstitution.ValuesAreNotRescanned | adapters/prometheus/tropek_prometheus/core/variable_substitutor.py:57-63 | a value stands in the output as it is, where its variable stood |
| VariableSubstitution.SelfBindingIsIdentity | adapters/prometheus/tropek_prometheus/core/variable_substitutor.py:57-63 | binding each name to its placeholder gives the template back |
| VariableSubstitution.OtherBindingsDoNotMatter | adapters/prometheus/tropek_prometheus/core/variable_substitutor.py:48-53 | only the names in the template matter |

## Left out

- Redis key expiry, `mark_timed_out` (which nothing calls) and failing Redis calls; `get_status` on a hash that holds a bare status, which raises.
- The semaphores of the coordinator: the model allows every interleaving they allow, and more. Timestamps, timeouts and `write_metadata` have no effect on the properties.
- The bounded polling of `sync_query`: a reader may poll for ever; what it returns after it saw 'completed' is modelled.
- JobRepositories.JobCoordinator.ProcessOne: the tasks run one after the other; their interleavings are those of `JobProtocol`.
- JobRepositories.JobManager.Submit: the fresh uuid is a parameter required to be unused.
- What a request does to the manifest server is a function from the server before to the server after; `ManifestApply.ManifestClient` replaces its server with the result, request by request.
- ManifestServer.DryRun: kinds other than SLI, SLO and SLOAssignment, whose updates are partial or absent by design, are not compared; they take part in the sort, the blocking rule and the tally.
- ManifestConvergence.SecondApply: documents have distinct keys and the run is failure-free; the server's own validation is an arbitrary predicate.
- Names that a URL does not carry as they are (`?`, `#`, `%`, control characters, dot segments) and names that are no texts.
- Comparison and total-score blocks of the wrong shape, values with explicit YAML tags (binary, set), and thresholds that are infinite, not a number, or integers beyond double precision.
- The display names, notes, authors and SLI references of definitions, which the diff does not look at.
- Loading and validating manifest files, and meta snapshots.
- Canvas measurement: an arbitrary partial function. ECharts options, colours, tooltips and categories.
- LabelPacking.PackIffFeasible: left-edge order is sufficient, not necessary; `LabelExamples.CentreOrderIsNotEnough` shows that some order is needed. Pixel positions are reals, without rounding.
- Isolation between statements of concurrent transactions: other requests commit between attempts, not inside one.
- Sessions of non-HTTP scopes, and the random draw of the backoff, which is any number up to the cap.
- AssetGroups.AssetGroupRepository.CollectSubgroupIds: the recursion limit of the interpreter on deep acyclic graphs. The order of link rows is the order of the list.
- Weights, names and member reads of asset groups.
- Finalizing parent runs, change points and SLI values, which happen after an evaluation is terminal; `mark_partial`, which nothing calls; operator actions on evaluations.
- The clock: staleness of a predecessor is any answer that an open predecessor allows.
- Calendar arithmetic: a function whose dates have months 1 to 12. JavaScript numbers above 2^53, where parsing rounds. Percent-encoding of the query string. Local storage.
- VariableSubstitution.Substitute: parsing of ISO 8601 times is a function; the order of names in the error message.
