# Ballista: a verified model of its hard parts

Ballista runs DataFusion queries on a cluster. A scheduler cuts a query into stages, hands the
stages' tasks to executors, and executors read each other's shuffle output over the network. This
project models the parts of that system whose correctness is not visible from any one function,
and proves what they promise. `dafny verify dfyconfig.toml` checks all of it.

| files | what they model |
|---|---|
| `StageTasks`, `RunningStage`, `ShuffleEdge`, `ShuffleRuns`, `ShuffleHarm`, `ShuffleStall`, `LostExecutor` | the scheduler's stage machine: handing out partitions, batches of reports, retries, lost executors, failed fetches, rolling stages back, and what a consuming stage reads |
| `Sorting`, `KllCore`, `KllIngest`, `KllSketch`, `KllQuery`, `KllHistory` | the KLL quantile sketch: compaction, the fast ingest paths, merging, rank queries |
| `KllShape`, `KllSpace`, `KllChance`, `KllError`, `KllAccuracy`, `KllHeight`, `KllClones`, `Averages`, `SharedErrors` | its error for all coins and over all falls of the coins, shared or not, and its space |
| `RangeCuts`, `RangeBalance`, `RangeScatter`, `RangeError` | range repartitioning: boundaries read off a sketch, splitting a batch along them, how even the parts are |
| `IpcDecoder`, `BlockStream`, `StreamTheorems` | fetching a shuffle partition: an Arrow IPC stream cut anywhere into blocks, several streams end to end |
| `Errors`, `Retry` | what the scheduler is told about a failed task, and the client's retry loops |
| `StoreBuild`, `StoreCache`, `StoreProtocol`, `StoreAgreement`, `StoreRace` | the object-store registry and its LRU cache under concurrent callers |
| `FaultBudget`, `ChaosQuery`, `ChaosRace` | the chaos tests' crash-proof budget of faults, and the query they must not change |
| `EventLoop` | the actor loop behind the scheduler's event handling |
| `SortableKeys`, `NullKeys` | order-preserving keys for floats, NULLs and rows |
| `Config`, `Session` | settings, their validation, and how they travel to executors |
| `Summary`, `HiveView`, `Statements` | the benchmark runner's crash-safe summary and Hive tables, and the command line's statement splitter |
| `Wrappers`, `Naturals` | `Option` and `Result`; products and quotients by repeated addition and subtraction |

## Results

The main theorems, hardest first.

* **Every partition reaches its consumer once** (`ShuffleRuns.InputsAreExact`). From the start of a
  job, through any run of hand-outs, batches of reports in any order, retries, lost executors and
  failed fetches, a consumer that is ready, running or done lists each partition of its producer
  exactly once - as long as every step is sound. `ShuffleRuns.StepKeepsIff` says which steps are
  not: a report on a task that has already succeeded, and rolling back a running producer that has
  published something. For each, `ShuffleHarm` has the exact condition under which every later run
  is safe, and otherwise a run that ends with a partition twice in a resolved consumer's input:
  `ShuffleHarm.RollBackIsSafeIff`, because rolling a stage back drops its tasks but not what they
  published, and `ShuffleHarm.ReportIsSafeIff`. Both happen to a job with two partitions
  (`ShuffleHarm.RollBackHappens`, `ShuffleHarm.SecondReportHappens`).
  `ShuffleHarm.JobOutputsStayIff` is the like for the last stage, whose outputs a lost executor
  does not shrink: a finished job can list a partition twice exactly when a success was lost.
* **A stage can be done and not be finished** (`ShuffleStall.StallsIff`). Of all sound steps exactly
  three kinds lead there: a batch whose reports make the stage done and which brings a late failed
  fetch that is news but names nothing the stage still has published; failed fetches that restart a
  finished stage and name nothing it has published; and starting a stage without partitions. Such a
  stage has nothing to hand out and nothing running. It stays so, and its consumer waits, over every
  run until a batch with a report on a task that is over and no news, a batch whose news names
  something published, the loss of an executor that has published something, or a roll-back
  (`ShuffleStall.StallEndsIff`, `ShuffleStall.StallLasts`). `ShuffleStall.StallHappens` and
  `ShuffleStall.WrongFetchStalls` are runs of sound steps from the start of a job that lead there.
* **Losing an executor ends, and ends clean** (`LostExecutor.SettleCleans`,
  `LostExecutor.SettleRestarts`): over any graph of stages, the passes come to an end, leave no
  unfinished stage with a task on the executor or an input from it, and restart every finished
  stage whose results had to be taken off.
* **KLL ranks are unbiased, and accurate to `O(1/k)`** (`KllError.RanksAreFair`,
  `KllAccuracy.MeanSquareError`, `KllAccuracy.FarIsRare`). For any history of feeding, merging and
  cloning in which merged sketches have flipped separate coins, and any probe: over all falls of
  all coins the rank is on average exactly the number of items below, the mean square of its error
  is at most `7.5 n^2 / (k (k - 1))`, and it is off by `t` or more in at most that over `t^2` of the
  falls. The header's `O(1/k sqrt(log(n/k)))` is met without the logarithm.
* **With it, whatever coins are shared** (`KllClones.ClonesAreFair`). A clone has the flips of its
  original behind it, so merging the two adds errors that are not independent. For any number of
  sketches, begun, fed, cloned and merged in any order, each one's ranks are still right on average,
  with mean square error at most `15 d n^2 / (8 k (k - 1))`, where `d`, the height less one, is at
  most logarithmic in `n / k`.
* **Every KLL sketch keeps its promises for every coin** (`KllHistory.EverySketchPromises`). Count
  and extremes are exact; a rank is off by at most the sum, over the levels below the top, of the
  count divided by the level's width, a bound that never grows with `k`
  (`KllShape.WiderIsCloser`); the height is at most logarithmic; and it retains at most `3k` items
  and seven more a level. The header says the space is constant in the length of the stream;
  `KllSpace.SpaceIsUnbounded` shows that for every `k` and every bound there is a length of stream
  that makes every sketch keep more than `3k` and that bound: the floor on a level's width makes
  the space grow with the height. That is about unbounded arithmetic: the program's 64-bit capacity
  formula overflows once a level lies 41 below the top.
* **Fast ingest is insertion one by one**, flags, chunks and cached capacity included
  (`KllSketch.KllSketch.AbsorbSlice` and its relatives), for every sketch the program makes
  (`KllHistory.EverySketchAbsorbs`). A rebuilt sketch may have a level exactly at its capacity, and
  then `absorb` and `insert` part ways: `KllIngest.AbsorbOneAgreesIff` has the exact condition.
* **Range partitions are near their share** (`RangeError.EveryPartitionIsNearShare`): for every
  history of the sketch the boundaries are read off, every partition has the even share of the
  rows, less one or more by two, give or take twice the sketch's error bound and the repetitions
  of the keys at its two ends. It rests on `RangeBalance.FittingRunIsBalanced`,
  `RangeBalance.OutgrownRunIsBalanced` and `RangeScatter.ScatterFollowsRanks`, for every number of
  values, NULLs and partitions and both NULL placements. Without NULLs the two placements are
  meant to agree; `RangeBalance.PlacementsAgreeIff` shows they do exactly when there are at least
  as many values as partitions, or only one value.
* **A fetched stream does not depend on how it is cut** (`StreamTheorems.ConcatenatedStreamsFetch`,
  `StreamTheorems.CutsAgreeIff`), exactly as long as the schema ends within the header limit.
* **The cache is transparent, bounded and least-recently-used, and callers agree exactly while
  fewer other keys are used than it has room for** (`StoreAgreement.CallersAgreeByUses`). The
  comment in the code says all callers that miss together get the same store;
  `StoreRace.MissedTogetherDisagree` is, for a cache of any size, a run in which two that do get
  different ones, because callers of as many other keys come between their inserts.
* **The fault budget is one atomic counter** under every interleaving of processes
  (`FaultBudget.BudgetIsAtomicCounter`), and a chaos run, however its processes race for tokens, has
  the baseline's result exactly when the guard is never NULL on a joined row
  (`ChaosRace.RacesMeanBaselineIff`). The fixture's comment says the guard never filters; one that
  is NULL on a fact that joins does (`ChaosQuery.NullGuardFilters`).
* **The verdict on every error** (`Errors.VerdictExact`), through any nest of wrapping.
* **Key order is IEEE 754 total order** for floats of any format (`SortableKeys.KeyOrderIsTotalOrder`).
* **Settings survive propagation** (`Session.PropagationIsFaithful`).

## Model

| member | source | states |
|---|---|---|
| `StageTasks.FreshKeeps` | ballista/scheduler/src/state/execution_stage.rs:635-662 | a stage just started satisfies the bookkeeping invariant: each partition waits or is held, none twice, and whatever has moved on is sealed |
| `StageTasks.BindKeeps` | ballista/scheduler/src/state/execution_stage.rs:337-342 | handing out any number of waiting partitions keeps the invariant |
| `StageTasks.UpdateKeeps` | ballista/scheduler/src/state/execution_stage.rs:837-882 | any report on any task, late or not, keeps the invariant, since a task whose partitions have moved on ignores reports |
| `StageTasks.ResetKeepsIff` | ballista/scheduler/src/state/execution_stage.rs:1103-1118 | resetting a task keeps the invariant if and only if none of its partitions waits or is held by another task that may still report |
| `StageTasks.UnsealedHolds` | ballista/scheduler/src/state/execution_stage.rs:837-857 | the partitions of a task that may still report wait nowhere, and every other task that had them is earlier and sealed |
| `StageTasks.LoseKeeps` | ballista/scheduler/src/state/execution_stage.rs:1129-1159 | losing an executor keeps the invariant, leaves no task on it, and makes exactly the waiting partitions and those of its running and successful tasks wait |
| `StageTasks.CoveredIffLatest` | ballista/scheduler/src/state/execution_stage.rs:1212-1220 | a partition is covered by a success if and only if its latest attempt is a success, which is what restarting a stage relies on |
| `StageTasks.CoveredOnce` | ballista/scheduler/src/state/execution_stage.rs:769-788 | no partition is ever held by two tasks that are running or successful |
| `StageTasks.RerunKeeps` | ballista/scheduler/src/state/execution_stage.rs:1221-1265 | a finished stage that lost some results restarts with exactly the partitions no remaining success covers, and with the invariant |
| `RunningStage.RunningStage.constructor` | ballista/scheduler/src/state/execution_stage.rs:635-662 | all partitions wait in order, no task, no failures |
| `RunningStage.RunningStage.BindTask` | ballista/scheduler/src/state/execution_graph.rs:1499-1545 | the next task takes the first waiting partitions under a fresh number, or there is none |
| `RunningStage.RunningStage.UpdateTaskInfo` | ballista/scheduler/src/state/execution_stage.rs:837-882 | accepted exactly when the task is not sealed; failure counters of its slice rise on a retryable failure and clear on success |
| `RunningStage.RunningStage.TaskFailureNumber` | ballista/scheduler/src/state/execution_stage.rs:1083-1093 | the largest failure count over the task's partitions |
| `RunningStage.RunningStage.ResetTaskInfo` | ballista/scheduler/src/state/execution_stage.rs:1103-1118 | the new queue and tasks, and that the stage is valid again if and only if no partition was in hand elsewhere |
| `RunningStage.RunningStage.ResetTasks` | ballista/scheduler/src/state/execution_stage.rs:1129-1159 | the new queue and tasks when an executor is lost, validity, and how many tasks were reset |
| `RunningStage.RunningStage.IsSuccessful` | ballista/scheduler/src/state/execution_stage.rs:773-787 | true if and only if nothing waits and a successful task covers every partition |
| `RunningStage.ResetSuccesses` | ballista/scheduler/src/state/execution_stage.rs:1271-1295 | exactly the successes on the executor are lost, and the count is zero exactly when nothing changed |
| `RunningStage.ToRunning` | ballista/scheduler/src/state/execution_stage.rs:1221-1240 | walking the tasks newest first finds, in order and once each, the partitions whose latest attempt is no success |
| `ShuffleEdge.SoundStepKeeps` | ballista/scheduler/src/state/execution_graph.rs:760-1195 | every sound step keeps the consumer's record equal to the producer's successful tasks, each once, and the consumer waiting while the producer runs |
| `ShuffleEdge.TellKeeps` | ballista/scheduler/src/state/execution_graph.rs:804-981 | one report - a success, a failure that leaves the job running, or a running report - whose task has not already succeeded, keeps the record equal to the successes: a success that counts adds exactly its own entry, no other report adds any, no other task changes, and reports on sealed tasks and of earlier attempts change nothing |
| `ShuffleEdge.BatchKeeps` | ballista/scheduler/src/state/execution_graph.rs:760-1195 | a batch of reports and late failed fetches, looked at in either order, keeps the record exact, and completes the input if and only if it brought reports, the stage is done and no late failure was news |
| `ShuffleEdge.LoseExecutorKeeps` | ballista/scheduler/src/state/execution_graph.rs:532-655 | exactly the lost executor's entries are taken off the record; if there were any the consumer waits again and a finished producer restarts, with exactly the partitions no remaining success covers |
| `ShuffleEdge.FetchFailuresKeep` | ballista/scheduler/src/state/execution_graph.rs:831-883 | failed fetches, naming any executors, take off exactly the entries those published, mark exactly the tasks behind them lost, restart the producer with exactly the partitions no remaining success covers, and leave the consumer waiting |
| `ShuffleRuns.StepKeepsIff` | ballista/scheduler/src/state/execution_graph.rs:760-1195 | of all enabled steps - batches without news of a late failure - exactly the sound ones keep the record exact |
| `ShuffleRuns.LoseTwice` | ballista/scheduler/src/state/execution_graph.rs:1289-1304 | a second reset for the same executor changes nothing |
| `ShuffleEdge.CompleteIsExact` | ballista/scheduler/src/state/execution_graph.rs:475-490 | a complete input has every partition of the producer once |
| `ShuffleRuns.InputsAreExact` | ballista/scheduler/src/state/execution_graph.rs:760-1195 | over every run of sound steps from the start of a job, a ready, running or finished consumer has every partition of its producer once |
| `ShuffleRuns.Finish` | ballista/scheduler/src/state/execution_graph.rs:984-1019 | a stage none of whose partitions is stuck can always be finished by hand-outs and sound reports, and then publishes again every partition no success covered |
| `ShuffleRuns.RunWorks` | ballista/scheduler/src/state/execution_graph.rs:896-948 | over every run of sound steps whose failures are retried no partition gets stuck |
| `ShuffleHarm.RollBackDoubles` | ballista/scheduler/src/state/execution_graph.rs:1358-1386 | after rolling back a producer that has published, a run of sound steps leaves a partition twice in a resolved consumer |
| `ShuffleHarm.RollBackIsSafeIff` | ballista/scheduler/src/state/execution_graph.rs:1358-1386 | rolling back a running producer is safe for all later runs if and only if nothing had been published |
| `ShuffleHarm.RollBackHappens` | ballista/scheduler/src/state/execution_graph.rs:1358-1386 | a run from the start of a job of two partitions in which it does harm |
| `ShuffleHarm.ReportIsSafeIff` | ballista/scheduler/src/state/execution_graph.rs:804-983 | a report is safe for all later runs if and only if it does not count or its task has not succeeded: otherwise, be it a second success, a retried failure or a running report, a run of sound steps leaves a partition twice in a resolved consumer |
| `ShuffleHarm.SecondReportHappens` | ballista/scheduler/src/state/execution_graph.rs:957-983 | a run from the start of a job in which a second success report does harm |
| `ShuffleHarm.JobOutputsStayIff` | ballista/scheduler/src/state/execution_graph.rs:467-470 | after an executor is lost, the finished last stage lists every partition once in the job's outputs, however its tasks are handed out and report, if and only if no success was on that executor |
| `ShuffleHarm.LossDoubles` | ballista/scheduler/src/state/execution_graph.rs:467-470 | otherwise the run in which the finished stage lists a partition twice |
| `ShuffleStall.StallsIff` | ballista/scheduler/src/state/execution_graph.rs:760-1195 | a sound step leaves a stage done but not finished if and only if it is a batch whose reports make it done and which brings a late failure that is news and names no published task, failed fetches that name no published task, or the start of a stage without partitions |
| `ShuffleStall.BatchStallsIff` | ballista/scheduler/src/state/execution_graph.rs:984-986 | the case of batches |
| `ShuffleStall.FetchStallsIff` | ballista/scheduler/src/state/execution_graph.rs:831-883 | the case of failed fetches |
| `ShuffleStall.StallEndsIff` | ballista/scheduler/src/state/execution_graph.rs:760-1195 | a sound step ends such a stall if and only if it is a batch with a report and no news, a batch whose news names a published task, the loss of an executor that has published, or a roll-back; handing out does nothing |
| `ShuffleStall.StallLasts` | ballista/scheduler/src/state/execution_graph.rs:1484-1545 | over every run of sound steps without one of those the stage stays so, with no task running and its consumer waiting |
| `ShuffleStall.StallHappens` | ballista/scheduler/src/state/execution_graph.rs:1038-1079 | a run of sound steps from the start of a job that leads there by a batch |
| `ShuffleStall.WrongFetchStalls` | ballista/scheduler/src/state/execution_graph.rs:831-883 | another, by a failed fetch from an executor that has published nothing |
| `LostExecutor.PassShrinks` | ballista/scheduler/src/state/execution_graph.rs:532-655 | every pass over the stages that resets something leaves fewer tasks and inputs on the lost executor |
| `LostExecutor.ResetOnLost` | ballista/scheduler/src/state/execution_graph.rs:1289-1305 | the loop of passes ends, at the fixed point |
| `LostExecutor.SettleCleans` | ballista/scheduler/src/state/execution_graph.rs:1289-1305 | at the end no unfinished stage of any graph has a task on the executor or an input from it |
| `LostExecutor.SettleRestarts` | ballista/scheduler/src/state/execution_graph.rs:609-655 | whatever was taken off a stage's record, the stage it was read from is not left finished; other records are as they were |
| `Sorting.SortedUnique` | ballista/core/src/kll.rs:767-797 | a sequence in order is determined by how many items lie below each probe |
| `Sorting.MergeSorted` | ballista/core/src/kll.rs:772-797 | the linear merge of two sequences in order is the sorting of both together |
| `KllCore.AlternateBelow` | ballista/core/src/kll.rs:739-746 | of an even buffer in order, one half rounds the count below a probe up and the other rounds it down |
| `KllCore.CompactRank` | ballista/core/src/kll.rs:725-766 | compacting level h moves the rank of any probe by 0 or by plus or minus 2^h, as its parity and the coin say |
| `KllCore.CoinsCancel` | ballista/core/src/kll.rs:58-59 | the coin makes a compaction unbiased: the shifts of its two outcomes cancel for every probe |
| `KllCore.CompactKeeps` | ballista/core/src/kll.rs:555-560 | compaction keeps the total weight and drops half of what it pairs |
| `KllCore.SettleFits` | ballista/core/src/kll.rs:691-706 | compacting to a fixed point, which exists, keeps the count exact and every rank within the weight compacted |
| `KllCore.FlipEstimates` | ballista/core/src/kll.rs:725-766 | one compaction widens the error by its own weight, and not at all for a probe below or above every item |
| `KllCore.InsertEachFits` | ballista/core/src/kll.rs:364-377 | inserting any stream under any coins keeps the count exact and every rank within the weight compacted |
| `KllCore.ExtremesFollow` | ballista/core/src/kll.rs:364-372 | the tracked extremes are those of the whole stream |
| `KllCore.IngestSummarizes` | ballista/core/src/kll.rs:364-377 | ingesting keeps count, extremes and rank error as promised for the longer stream |
| `KllIngest.ChunkIsInserts` | ballista/core/src/kll.rs:464-476 | a chunk that at most fills level 0 may be poured in at once |
| `KllIngest.InsertEachConcat` | ballista/core/src/kll.rs:394-396 | inserting two runs one after the other is inserting them as one |
| `KllIngest.AbsorbIsInserts` | ballista/core/src/kll.rs:394-422 | absorbing into a settled sketch leaves the very sketch inserting leaves, coins included |
| `KllIngest.AbsorbOneAgreesIff` | ballista/core/src/kll.rs:404-422 | on any sketch, absorbing an item is inserting it if and only if no level above 0 is full or the item fills level 0 |
| `KllIngest.RebuiltSketchDiffers` | ballista/core/src/kll.rs:283-318 | a sketch accepted from its parts on which absorbing and inserting one item differ |
| `KllIngest.JoinRank` | ballista/core/src/kll.rs:345-359 | joining same-height levels adds the ranks of every probe |
| `KllIngest.MergeSummarizes` | ballista/core/src/kll.rs:318-361 | a merged sketch summarizes both streams, with the errors added to that of its own compactions |
| `KllSketch.KllSketch.constructor` | ballista/core/src/kll.rs:252-262 | a new sketch summarizes the empty stream without error |
| `KllSketch.Carry` | ballista/core/src/kll.rs:739-761 | merged or appended, the next level holds in order what it should, and stays in order if it was |
| `KllSketch.CompactOnce` | ballista/core/src/kll.rs:725-766 | with the sortedness flags, a compaction is the compaction of the levels put in order, and no flag claims too much |
| `KllSketch.KllSketch.CompactLevel` | ballista/core/src/kll.rs:725-766 | as an update of the sketch: one flip, or nothing for a level of fewer than two |
| `KllSketch.KllSketch.CompactAll` | ballista/core/src/kll.rs:691-706 | ends, at the fixed point |
| `KllSketch.KllSketch.Insert` | ballista/core/src/kll.rs:364-377 | is the reference insertion |
| `KllSketch.KllSketch.Absorb` | ballista/core/src/kll.rs:404-422 | is the reference absorption, and insertion one by one from a settled sketch |
| `KllSketch.KllSketch.AbsorbSlice` | ballista/core/src/kll.rs:439-477 | chunk-wise ingest loses nothing from any sketch, and is insertion one by one from a settled one |
| `KllSketch.KllSketch.AbsorbSortedSlice` | ballista/core/src/kll.rs:497-538 | so does ingest of sorted input, which falls back when the input is not sorted |
| `KllSketch.BatchExtremes` | ballista/core/src/kll.rs:443-463 | tracking only a batch's extremes is tracking each of its items |
| `KllSketch.JoinLevels` | ballista/core/src/kll.rs:345-359 | extending level by level gives the joined stack, with truthful flags |
| `KllSketch.KllSketch.Merge` | ballista/core/src/kll.rs:331-361 | is the reference merge |
| `KllSketch.KllSketch.FromParts` | ballista/core/src/kll.rs:292-318 | accepts exactly the stacks described, and then has their items, extremes and error |
| `KllSketch.KllSketch.Count` | ballista/core/src/kll.rs:555-567 | the total weight |
| `KllSketch.KllSketch.RankOf` | ballista/core/src/kll.rs:569-582 | the weight strictly below the probe |
| `KllSketch.KllSketch.AtRanks` | ballista/core/src/kll.rs:627-690 | each of the batch's answers is the answer to its own rank, in the order asked |
| `KllQuery.AtRanks` | ballista/core/src/kll.rs:640-690 | one sweep over the weighted items answers every rank with the item at which the weight reaches it |
| `KllQuery.AnswerIsUnique` | ballista/core/src/kll.rs:627-639 | a rank has one answer, so a batch answers as asking one at a time would |
| `KllQuery.AnswerIsNear` | ballista/core/src/kll.rs:608-622 | the answer's position in the stream itself is the rank asked for, give or take the sketch's error; the ends are exact |
| `KllShape.SettleHas` | ballista/core/src/kll.rs:691-706 | the level sizes, and what has been compacted, are a function of shape alone: they depend on neither the items nor the coins |
| `KllShape.CapacityFalls` | ballista/core/src/kll.rs:184-203 | a level's capacity never grows as the stack grows |
| `KllShape.FlipSound` | ballista/core/src/kll.rs:725-766 | the compactions of each level, each at the level's width, are paid for by the weight above it |
| `KllShape.JoinSound` | ballista/core/src/kll.rs:345-359 | also after merging stacks of different heights |
| `KllShape.SpentBound` | ballista/core/src/kll.rs:69-71 | all compactions together weigh at most the sum over the levels below the top of the count divided by the level's width |
| `KllShape.WiderIsCloser` | ballista/core/src/kll.rs:69-71 | that bound never grows with k |
| `KllHistory.SpaceBound` | ballista/core/src/kll.rs:72-78 | a settled sketch retains at most 3k items and seven more for each level |
| `KllHistory.HistorySound` | ballista/core/src/kll.rs:691-706 | every sketch so made has no full level, half a top capacity on top once it has grown, and its compactions paid for |
| `KllHistory.HistoryHas` | ballista/core/src/kll.rs:691-706 | every sketch so made has the shape of its history |
| `KllHistory.HistorySummarizes` | ballista/core/src/kll.rs:318-377 | every sketch so made summarizes the items that went into it |
| `KllHistory.EverySketchPromises` | ballista/core/src/kll.rs:69-78 | for every history, stream and coins: count and extremes exact, every rank within the bound in k, height and count and exact at the ends, height logarithmic, space at most 3k and seven a level |
| `KllSpace.Deliver` | ballista/core/src/kll.rs:691-706 | from any settled stack, some number of inserts hands a deep level a single packet of at most six items and touches nothing above it |
| `KllSpace.SpaceIsUnbounded` | ballista/core/src/kll.rs:73-78 | for every k and bound there is a length of stream for which every sketch retains more than 3k items and that bound |
| `KllChance.OutcomesCount` | ballista/core/src/kll.rs:58-59 | the outcomes of a history are as many as the ways its coins can fall |
| `KllChance.SketchIsOne` | ballista/core/src/kll.rs:58-59 | however the coins fall, the sketch is one of them |
| `KllChance.SameCount` | ballista/core/src/kll.rs:691-706 | how many outcomes settling has is a matter of shape, so all are equally likely |
| `KllError.SettlesMean` | ballista/core/src/kll.rs:58-59 | over all falls of its coins, settling keeps the mean of every rank |
| `KllError.SettlesWithin` | ballista/core/src/kll.rs:725-766 | and adds to the mean square error at most 4^h for each compaction of level h |
| `KllError.RanksAreFair` | ballista/core/src/kll.rs:58-59 | for every history whose merged sketches flipped separate coins, and every probe, the rank is on average exactly the number of items below it, with mean square error at most the sum of 4^h over all compactions |
| `KllAccuracy.NarrowestWidth` | ballista/core/src/kll.rs:184-203 | a level is at least four fifths of k times two thirds to the power of its depth wide |
| `KllAccuracy.MeanSquareError` | ballista/core/src/kll.rs:69-71 | for every history whose merged sketches flipped separate coins, and every probe, the mean square error of the rank is at most 7.5 n^2 / (k (k - 1)) |
| `KllAccuracy.FarIsRare` | ballista/core/src/kll.rs:69-71 | and the falls of the coins for which it is off by t or more are at most that bound over t^2 of all |
| `KllHeight.FlipPays` | ballista/core/src/kll.rs:725-766 | a compaction raises the items' weighted height by enough to pay for the square of the error it adds |
| `KllHeight.SettleCovers` | ballista/core/src/kll.rs:691-706 | so does compacting to the fixed point |
| `SharedErrors.NearSummed` | ballista/core/src/kll.rs:345-359 | added number by number, however they depend on each other, two lists of ranks are as near in mean square as their items and heights together allow |
| `KllClones.PoolIsOne` | ballista/core/src/kll.rs:218-236 | whatever is done to any number of sketches, clones among them, what they are is one of the listed cases |
| `KllClones.ClonesAreFair` | ballista/core/src/kll.rs:58-71 | over those cases every sketch's ranks are right on average, with mean square error at most 15 (height - 1) n^2 / (8 k (k - 1)) and as seldom far off as that says, whatever coins merged sketches share |
| `KllHistory.EverySketchAbsorbs` | ballista/core/src/kll.rs:394-396 | absorbing is inserting one by one for every sketch so made |
| `KllHistory.PartsComeBackIff` | ballista/core/src/kll.rs:283-306 | the parts of a sketch so made are accepted back if and only if k is at least the narrowest level |
| `RangeCuts.RanksAscend` | ballista/core/src/sort_key.rs:769-801 | the ranks of successive boundaries never decrease |
| `RangeCuts.RankAt` | ballista/core/src/sort_key.rs:769-801 | every boundary asks for the rank of a value, never of a NULL |
| `RangeBalance.OutgrownRunIsBalanced` | ballista/core/src/sort_key.rs:721-747 | NULLs that outgrow a partition take one whole, and any two others differ by at most one row |
| `RangeBalance.FittingRunIsBalanced` | ballista/core/src/sort_key.rs:721-747 | when the NULLs fit, every partition is at most one row below and two above the share |
| `RangeBalance.PlacementsAgreeIff` | ballista/core/src/sort_key.rs:1789-1803 | without NULLs both placements choose the same ranks if and only if there are as many values as partitions, or one |
| `RangeBalance.RowsAddUp` | ballista/core/src/sort_key.rs:1670-1698 | the partitions together hold every value and every NULL once |
| `RangeScatter.Cuts` | ballista/core/src/sort_key.rs:751-818 | nothing to divide gives no boundaries; otherwise each boundary answers its rank, and only a sketch without a maximum fails |
| `RangeScatter.CutsAscend` | ballista/core/src/sort_key.rs:751-818 | boundaries never decrease, for any sketch of any stream |
| `RangeScatter.BucketIsRange` | ballista/core/src/execution_plans/range_repartition_common.rs:154-158 | a bucket is exactly the half-open range between two boundaries |
| `RangeScatter.RowsInHolds` | ballista/core/src/execution_plans/range_repartition_common.rs:199-203 | a row is in exactly the bucket its key calls for, and rows keep their order |
| `RangeScatter.Split` | ballista/core/src/execution_plans/range_repartition_common.rs:158-216 | splitting a batch puts each row in its bucket |
| `RangeScatter.BucketsAreOrdered` | ballista/core/src/execution_plans/range_repartition_common.rs:154-158 | a value in a later bucket is greater than one in an earlier bucket |
| `RangeScatter.BucketSize` | ballista/core/src/sort_key.rs:1670-1698 | a bucket's rows are the values between its boundaries, and the NULLs at their end |
| `RangeScatter.ScatterFollowsRanks` | ballista/core/src/sort_key.rs:721-747 | every bucket has the rows its ranks set out, give or take twice the sketch's error, more by at most the repetitions of the key it begins with and less by at most those of the key it ends before |
| `RangeScatter.DistinctScatterFollowsRanks` | ballista/core/src/sort_key.rs:721-747 | over distinct keys, give or take twice the sketch's error |
| `RangeError.EveryPartitionIsNearShare` | ballista/core/src/sort_key.rs:721-818 | for every history of the sketch, unless the NULLs outgrow a partition: every partition has the even share less one or more by two, give or take twice the error bound in k, height and count and the repetitions at its ends |
| `RangeError.OtherPartitionsAreNear` | ballista/core/src/sort_key.rs:721-818 | when they do, any two other partitions differ by at most one, give or take four times that bound and the repetitions |
| `IpcDecoder.SlabIsBytewise` | ballista/core/src/client.rs:632-634 | decoding a slab in one go is decoding it byte by byte |
| `IpcDecoder.BytewiseSplits` | ballista/core/src/client.rs:616-620 | decoding two pieces one after the other is decoding them as one |
| `IpcDecoder.DecodeIsBytewise` | ballista/core/src/client.rs:632-634 | one call of the decoder, and whatever follows, is the byte-by-byte run, restarts after an end of stream included |
| `BlockStream.BlockDataStream.constructor` | ballista/core/src/client.rs:548-555 | a stream starts with everything read so far still to be decoded |
| `BlockStream.BlockDataStream.TryNew` | ballista/core/src/client.rs:564-610 | opens with the schema found, keeping every byte read, or refuses with the first of the three errors to occur |
| `BlockStream.BlockDataStream.ExtendBytes` | ballista/core/src/client.rs:636-643 | a block goes behind what is buffered, and every byte is counted |
| `BlockStream.BlockDataStream.DecodeBuffered` | ballista/core/src/client.rs:632-634 | what decoding yields and leaves is what the byte-by-byte run has coming |
| `BlockStream.BlockDataStream.PollNext` | ballista/core/src/client.rs:651-691 | each poll yields the next of what is coming, ends only at its end, and loses no byte |
| `BlockStream.BlockDataStream.Collect` | ballista/core/src/client.rs:774-831 | polling to the end gives exactly what the bytes decode to |
| `StreamTheorems.FetchAll` | ballista/core/src/client.rs:564-691 | opening and polling to the end is the reference fetch |
| `StreamTheorems.SniffPrefix` | ballista/core/src/client.rs:583-600 | the schema is found in a prefix if and only if the prefix reaches its last byte, and then it is the same |
| `StreamTheorems.OpeningFinds` | ballista/core/src/client.rs:564-610 | a schema that fits the limit is found however the bytes arrive, and nothing is lost |
| `StreamTheorems.OpeningFails` | ballista/core/src/client.rs:564-610 | which refusal bytes without a schema meet |
| `StreamTheorems.ChunkingIndependence` | ballista/core/src/client.rs:774-790 | two cuts of the same bytes, idle polls and faults included, are fetched alike |
| `StreamTheorems.CutsAgreeIff` | ballista/core/src/client.rs:557-576 | all cuts agree if and only if there is no schema or it ends within the limit and one byte |
| `StreamTheorems.OverlongSchemaDependsOnCut` | ballista/core/src/client.rs:570-576 | for every byte string with a longer schema, two cuts that differ |
| `StreamTheorems.TruncationIsSilent` | ballista/core/src/client.rs:676-689 | a stream that stops early gives a prefix of the batches and no error |
| `StreamTheorems.FramesDecode` | ballista/core/src/client.rs:808-831 | messages as a writer lays them out, with or without the continuation marker, decode to what they mean |
| `StreamTheorems.ConcatenatedStreamsDecode` | ballista/core/src/client.rs:833-851 | complete streams end to end decode to all their batches in order |
| `StreamTheorems.LeadingSchemaIsSniffed` | ballista/core/src/client.rs:853-873 | the first stream's schema is the one found, whatever follows |
| `StreamTheorems.ConcatenatedStreamsFetch` | ballista/core/src/client.rs:833-851 | for every cut of complete streams end to end: the first schema, all batches in order, a clean end |
| `Errors.LayersAreTransparent` | ballista/core/src/error.rs:230-266 | any nest of contexts, shared and external wrappers leaves the root error what it was |
| `Errors.FetchFailedSitsUnderLayers` | ballista/core/src/error.rs:230-250 | a fetch failure that is found is really held under such a nest |
| `Errors.IoSitsUnderLayers` | ballista/core/src/error.rs:252-266 | so is an IO error that is found retryable |
| `Errors.VerdictExact` | ballista/core/src/error.rs:268-308 | for every error which verdict is given, each kind if and only if the error holds that cause |
| `Errors.ConversionVerdict` | ballista/core/src/error.rs:98-139 | converting an error on arrival changes the verdict in exactly three shapes |
| `Errors.CarriedErrorComesBack` | ballista/core/src/error.rs:79-85 | an error carried through DataFusion comes back as itself, with its verdict unless it is a bare cancellation |
| `Retry.DecisiveExact` | ballista/core/src/client.rs:292-367 | the deciding attempt is the first that is not retried, or the last |
| `Retry.ExecuteDoAction` | ballista/core/src/client.rs:389-463 | for any server, the outcome of the deciding attempt after exactly that many requests |
| `Retry.ExecuteDoGet` | ballista/core/src/client.rs:292-367 | the same for the Flight transport |
| `Retry.ActionFailureVerdict` | ballista/core/src/client.rs:257-284 | a failed block fetch is blamed on the partition asked for if and only if its deciding call failed, whatever wraps it on the way |
| `Retry.ReportedVerdict` | ballista/core/src/error.rs:268-308 | an error reported under any layers gets its own verdict, a cancellation excepted |
| `Retry.GetFailureVerdict` | ballista/core/src/client.rs:257-284 | the verdict on every failed Flight fetch: blamed on the partition asked for if no schema message came or it carries a failed call, and otherwise that of the error the message carries |
| `StoreBuild.PortIsVisible` | ballista/core/src/object_store.rs:263-283 | a key tells whether and which port its URL has |
| `StoreBuild.AuthorityInjective` | ballista/core/src/object_store.rs:263-283 | two URLs with one authority have one host and one port |
| `StoreBuild.KeyDeterminesBuild` | ballista/core/src/object_store.rs:154-248 | requests with one key build the same store, so serving one for the other is right |
| `StoreCache.TakeAfterUse` | ballista/core/src/object_store.rs:285-299 | using a key and then keeping the most recent is keeping the most recent and then using it |
| `StoreCache.TouchRefinesRecency` | ballista/core/src/object_store.rs:303-317 | the cache's list is always the most recently used keys, up to its capacity |
| `StoreCache.Cache.constructor` | ballista/core/src/object_store.rs:294-298 | empty, never used |
| `StoreCache.Cache.Get` | ballista/core/src/object_store.rs:308-310 | a hit returns the cached store and makes its key the most recent; a miss changes nothing |
| `StoreCache.Cache.GetOrInsert` | ballista/core/src/object_store.rs:315-316 | what is there already wins; otherwise the least recent is evicted |
| `StoreCache.Cache.GetOrBuild` | ballista/core/src/object_store.rs:303-317 | a failed build leaves the cache as it was |
| `StoreProtocol.StepKeepsInv` | ballista/core/src/object_store.rs:154-185 | whatever the interleaving, every cached store was built from a request with its key, and the cache is the recency list of its uses |
| `StoreProtocol.CacheIsTransparent` | ballista/core/src/object_store.rs:517-533 | every caller gets a store that building for its own request would have given, under concurrent changes of options |
| `StoreProtocol.CacheIsBoundedRecency` | ballista/core/src/object_store.rs:582-600 | in every run the cache holds exactly the most recently used keys, at most its capacity |
| `StoreProtocol.FailedBuildInsertsNothing` | ballista/core/src/object_store.rs:312-316 | a failed build changes no entry and returns no store |
| `StoreProtocol.CallersAgreeIff` | ballista/core/src/object_store.rs:312-316 | two callers with one key get the same store if and only if the key stays cached from the one return to the other |
| `StoreAgreement.KeptIff` | ballista/core/src/object_store.rs:285-299 | a key is among the n most recent if and only if it was used and fewer than n distinct others since |
| `StoreAgreement.CallersAgreeByUses` | ballista/core/src/object_store.rs:312-316 | two callers with one key get the same store if and only if, between their returns, there are never as many distinct other keys used since the key's last use as the cache has room for |
| `StoreRace.MissedTogetherDisagree` | ballista/core/src/object_store.rs:312-316 | for a cache of any size and callers of as many other keys: a run in which two callers miss a key together and get different stores |
| `StoreRace.DisagreementHappens` | ballista/core/src/object_store.rs:312-316 | for every size such callers exist, for hosts of different names and a store library that accepts them |
| `FaultBudget.Directory.constructor` | chaos-testing/src/budget.rs:33-43 | no tokens yet |
| `FaultBudget.Directory.Create` | chaos-testing/src/budget.rs:33-43 | exactly the budget's tokens afterwards, whatever was there |
| `FaultBudget.Directory.Remaining` | chaos-testing/src/budget.rs:57-61 | the number of tokens left |
| `FaultBudget.Directory.TryConsume` | chaos-testing/src/budget.rs:63-77 | with rivals at work: a win takes a token that was there, a refusal means none is left; alone, it wins exactly when there is a token |
| `FaultBudget.StepRefinesCounter` | chaos-testing/src/budget.rs:63-77 | each step of racing processes is a step of one counter or no step of it |
| `FaultBudget.BudgetIsAtomicCounter` | chaos-testing/src/budget.rs:20-31 | under every interleaving the answers are those of an atomic counter: never more faults than the budget, no token twice, no refusal while tokens remain |
| `ChaosQuery.InvokeOn` | chaos-testing/src/udf.rs:74-113 | with rivals or alone: a fault, the one the mode names or the one for an unknown mode, is raised only when the guard selects a row and a token was won; otherwise the guard passes through, and then none was left if it selects a row; alone, exactly when both hold |
| `ChaosQuery.FaultsStayWithinBudget` | chaos-testing/src/udf.rs:74-113 | over every run of tasks, retries and batches at most the budget's faults are raised |
| `ChaosQuery.SumPermutation` | chaos-testing/src/fixture.rs:125-131 | sums do not depend on the order rows arrive in |
| `ChaosQuery.AggregatePermutation` | chaos-testing/src/fixture.rs:125-131 | neither does the grouped result |
| `ChaosQuery.ChaosMeansBaselineIff` | chaos-testing/src/fixture.rs:144-170 | the guarded query has the baseline's result if and only if the guard is NULL on no joined row |
| `ChaosQuery.NullGuardFilters` | chaos-testing/src/fixture.rs:144-170 | a guard that is NULL on one fact that joins changes the result |
| `ChaosQuery.ChaosRunMeansBaselineIff` | chaos-testing/src/fixture.rs:342-394 | so it is for any run in which each row is delivered by one attempt, however many faults came before |
| `ChaosRace.MoveRefines` | chaos-testing/src/budget.rs:63-77 | each move of attempts racing for tokens in the shared directory is a step of the run in which every batch is decided at one instant, or no step |
| `ChaosRace.RacesMeanBaselineIff` | chaos-testing/src/fixture.rs:342-394 | however processes race: tokens and faults add up to the budget, and the result is the baseline's if and only if the guard is NULL on no joined row |
| `ChaosQuery.GuardPushesBelowJoin` | chaos-testing/src/fixture.rs:144-170 | the guard on a fact column may be applied before the join |
| `EventLoop.StepKeepsInv` | ballista/core/src/event_loop.rs:77-101 | what every step of senders, loops and a stopper keeps |
| `EventLoop.EventLoopRuns` | ballista/core/src/event_loop.rs:77-157 | over all runs: handlers begin on the posted events in order and at most once each; every failure is reported once; a loop ends only after a stop, with at most one handler after it; on_stop is called once, by the end of the first stop |
| `EventLoop.NeverSeesClosed` | ballista/core/src/event_loop.rs:82-97 | the loop never sees its channel closed, since it keeps a sender of its own |
| `EventLoop.StoppedLoopStillWaits` | ballista/core/src/event_loop.rs:120-127 | stopping does not wake a loop that waits for an event |
| `EventLoop.StoppedLoopCanEnd` | ballista/core/src/event_loop.rs:120-127 | one more post always lets it end, in at most five steps |
| `SortableKeys.KeyRoundTrip` | benchmarks/benches/quantile_sketch.rs:380-393 | key and float convert back and forth, both ways round, at any width |
| `SortableKeys.ComplementReverses` | benchmarks/benches/quantile_sketch.rs:380-393 | complementing all bits reverses the order |
| `SortableKeys.MultipleMonotone` | benchmarks/benches/quantile_sketch.rs:380-393 | the magnitude of a float grows with its exponent and fraction fields, subnormals included |
| `SortableKeys.KeyOrderIsTotalOrder` | benchmarks/benches/quantile_sketch.rs:380-393 | keys compare as IEEE 754 total order compares the floats: signed zeros, subnormals, infinities and NaNs |
| `SortableKeys.KeyOrder64And32` | benchmarks/benches/quantile_sketch.rs:413-422 | in particular for 64 and 32 bits |
| `NullKeys.SortingUnique` | benchmarks/benches/quantile_sketch.rs:100-113 | a collection of keys has one sorting |
| `NullKeys.IngestTagged` | benchmarks/benches/quantile_sketch.rs:450-472 | ingest batch by batch collects the tagged keys of the whole column |
| `NullKeys.TaggedOrderIsNullsThenValues` | benchmarks/benches/quantile_sketch.rs:100-113 | sorting tagged keys is the NULLs followed by the sorted values, and nothing else is |
| `NullKeys.TaggedRank` | benchmarks/benches/quantile_sketch.rs:100-113 | a value's rank in the column is its rank among the values plus the NULLs |
| `NullKeys.TagIsTheBitAbove` | benchmarks/benches/quantile_sketch.rs:100-113 | tagging sets exactly the bit above a key of the given width |
| `NullKeys.PadKeepsOrderIff` | benchmarks/benches/quantile_sketch.rs:340-378 | zero padding keeps the order of two rows if and only if neither only extends the other by zeros |
| `NullKeys.RowKeysKeepOrder` | benchmarks/benches/quantile_sketch.rs:340-378 | so equally long rows within the width keep their order |
| `Config.DecimalOfText` | ballista/core/src/config.rs:623-660 | printing a number and reading it back gives the number |
| `Config.ParsePrinted` | ballista/core/src/config.rs:623-660 | a value printed by a setter parses, as its type, to itself |
| `Config.WithSettings` | ballista/core/src/config.rs:602-621 | accepted if and only if every value in effect parses as its type; otherwise the error names one that does not |
| `Config.SoundGettersReturn` | ballista/core/src/config.rs:946-994 | a getter of an accepted configuration returns if and only if its setting has a value or default |
| `Config.UncheckedSet` | ballista/core/src/config.rs:1010-1020 | setting later is not checked: that getter fails from then on if and only if the text does not parse, and no other changes |
| `Session.SetBallista` | ballista/core/src/config.rs:1010-1020 | a Ballista name is stored under its full name and touches nothing else |
| `Session.SetElsewhere` | ballista/core/src/config.rs:1010-1020 | any other name leaves Ballista's settings alone |
| `Session.ExportIsExport` | ballista/core/src/extension.rs:625-647 | the pairs sent carry every setting once, with its value or default |
| `Session.SessionConfig.constructor` | ballista/core/src/extension.rs:442-459 | holds the options given |
| `Session.SessionConfig.UpdateFromPairs` | ballista/core/src/extension.rs:649-680 | the pairs are replayed in order, skipping those that cannot be set |
| `Session.ReplayCarries` | ballista/core/src/extension.rs:649-680 | after a replay a setting has the last value the pairs carry for it, or what it had |
| `Session.PropagationIsFaithful` | ballista/core/src/extension.rs:625-680 | in any order, on any receiver, every getter returns what it returns at the sender, defaults of the sender included |
| `Session.SetterLaw` | ballista/core/src/extension.rs:371-431 | each generated getter returns what its setter stored, and no other setting changes |
| `Session.FurtherUpgradesChangeNothing` | ballista/core/src/extension.rs:442-459 | after one upgrade, upgrades anywhere among the user's settings change nothing |
| `Session.UpgradeRestrictsIff` | ballista/core/src/extension.rs:682-758 | an upgraded session has Ballista's engine options if and only if the extension was absent before or they were there already |
| `Session.SetterBeforeUpgrade` | ballista/core/src/extension.rs:442-459 | so one Ballista setter used before the upgrade keeps them from being applied |
| `Summary.FailuresIff` | benchmarks/src/summary.rs:39-63 | a failure is counted if and only if some run has an error |
| `Summary.Suite.constructor` | benchmarks/src/summary.rs:112-120 | nothing run, the old file in place |
| `Summary.Suite.WriteSummary` | benchmarks/src/summary.rs:224-255 | at every moment, whatever fails or is cut off, the file is the complete summary of a prefix of the runs |
| `Summary.Suite.RunSuite` | benchmarks/src/summary.rs:112-165 | the file is never more than one query behind and never goes back; all queries are recorded in order; an error comes back exactly when some query failed |
| `HiveView.NullPartitionColumns` | benchmarks/src/lib.rs:377-409 | exactly the partition columns with a default-partition directory |
| `HiveView.SentinelsAreDetected` | benchmarks/src/lib.rs:377-409 | every sentinel a row is read with is in a detected column |
| `HiveView.ViewIsTyped` | benchmarks/src/lib.rs:319-361 | the view's cells are the typed cells, sentinel replaced by NULL |
| `HiveView.ViewEqualsTypedTable` | benchmarks/src/lib.rs:319-374 | the registered table, view or not, has the rows of the typed table, and fails when it does |
| `Statements.ExecFromLines` | ballista-cli/src/exec.rs:38-81 | executes the statements of the kept lines in order |
| `Statements.Reassembly` | ballista-cli/src/exec.rs:38-81 | the statements end to end are the kept lines, nothing lost or added |
| `Statements.StatementEnds` | ballista-cli/src/exec.rs:38-81 | the statements are the kept lines cut after every line that ends in a semicolon and nowhere else: whatever grouping of the lines ends each group but the last at its first such line, the statements are its groups |
| `Statements.SplitAgain` | ballista-cli/src/exec.rs:38-81 | writing the statements as a script and splitting it again gives the same statements |

## Left out

- The planners, the plans themselves, the adaptive (AQE) graph, the executors, and the scheduler's task binding across executors and its back ends.
- ShuffleRuns.InputsAreExact: covers one edge with one consumer; a stage read by several others is not modelled, except for the passes after a lost executor.
- ShuffleRuns.StepKeepsIff: does not judge batches with an unsound report and a late failure that is news, since that failure may take back what the report did.
- ShuffleHarm.ReportIsSafeIff: for stages none of whose partitions is stuck with a failure that is not retried, which is how runs with retried failures leave them, and for reports that do not themselves leave one stuck. Failures to fetch, execution errors and failures without a reason are no such reports.
- ShuffleHarm.JobOutputsStayIff: for such stages too; the job's outputs are modelled as the record of a consumer that only waits for them.
- LostExecutor.SettleRestarts: takes the record of every stage, finished ones included, to list only successes of the finished stages it reads.
- Failures that fail the job - execution errors, failures without a reason, retries used up - are no steps of the edge, which ends there.
- A report that names a task number the stage does not have stops the program; the edge ignores it.
- Every successful task is taken to publish at least one location, all on the executor that reports it.
- Metrics, column statistics, runtime statistics and window states kept with a stage.
- The coins are the falls of independent fair coins; the generator behind them is not modelled.
- KllError.RanksAreFair: for histories whose merged sketches flipped separate coins; a sketch merged with its own clone is under KllClones.ClonesAreFair, with a wider bound.
- KllAccuracy.MeanSquareError: for such histories too.
- Items of a sketch are integers, so equal items are indistinguishable; order within a level that is not sorted is not part of the view.
- The sketch's 64-bit weights and the depth at which its capacity formula overflows; and `quantile`, whose argument is a float.
- Encoding sort keys of each data type as integers and decoding the boundaries; writing a sketch to its wire form.
- RangeScatter.Cuts: the text of its error.
- The message contents and compression inside Arrow IPC; the decoder, which is library code, is modelled as a state machine over a given codec.
- Negative lengths inside IPC metadata, and lengths that do not fit the host's memory.
- Connections, TLS and headers of the Flight client; waiting between retries; the connection pool.
- Retry counts are any natural number, not 8 bits wide.
- Error texts other than those that are passed on; DataFusion's collection and diagnostic wrappers, which have no single cause.
- The store registry's local-file and unsupported schemes; how each S3 option is parsed - a change of options is any change.
- The store protocol, the racing half of the fault budget, the chaos runs and the event loop are state machines over values; their locks and channels are the atomicity of a step, and heap aliasing is not modelled.
- EventLoop.NeverSeesClosed: says nothing about the tasks' memory, only about the channel.
- The order of rows with equal names under ORDER BY; the set-up of the chaos cluster.
- The list of settings, which is a parameter; parsing and printing of floats, of which only the round trip is assumed.
- Batch builders and timing of the benches; the layout checks of parquet tables.
- Summary.Suite.WriteSummary: covers a process that stops at any moment; a machine that loses power after a rename is not modelled.
