# The proving service's scheduler, in Dafny

A parallel proving service turns one program run into one proof.  A splitter cuts the run
into segments, prover nodes prove the segments, an aggregation tree folds the proofs into
one, and a last step wraps it into a snark proof.  This project models the four parts that
coordinate the work and proves what they promise:

| part | source | files |
|---|---|---|
| the stage state machine and its event loop | `proof-service/src/stage/stage.rs`, `stage_worker.rs`, `tasks/` | `Tasks`, `StageSpec`, `Stage`, `StageWorker`, `WorkerSpec`, and the proofs `StageInvariant`, `StageBuild`, `StageSteps`, `StageProgress`, `WorkerCalls`, `WorkerInvariant`, `WorkerSafety`, `WorkerLiveness`, `WorkerProgress`, `WorkerBounds`, `WorkerTermination`, `WorkerClock`, `WorkerSchedules`, `WorkerRetries`, `WorkerHandOuts`, `WorkerLoad`, `WorkerLists`, `WorkerAnswers`, `WorkerNames` |
| the aggregation trees of both generations | `stage.rs`, `tasks/agg_task.rs` | `AggPlan`, `Stage`, `AggTreeV1` |
| the parallel splitter | `prover_v2/src/executor.rs` | `SplitFold`, `SplitValues`, `SplitPipeline`, `DeferredFiles`; what it leaves for the stage: `SplitHandover` |
| the node pool and admission counter | `proof-service/src/prover_client.rs`, `prover_node.rs` | `NodePool`, `ProverCalls`, `PoolNodes`, `ProverReplies`; one stage's loop together with its counter: `QuotaSpec`, `QuotaInvariant`, `QuotaResults`, `QuotaClean`, `QuotaSchedules`, `QuotaWitness`, `QuotaStarvation`; both side by side: `PoolProjection` |

Code that changes state in place is a class here too: `Stage`, `StageWorker`, `StageV1`,
`Splitter` and `Pool` have the fields of the original, and each method is proved equal to
a function on the whole state (`View()`).  The properties are then proved about these
functions, over all runs.  A run of the stage (`History`) is driven by any sequence of
events: which calls return, with what answer, in which order and when, which segment files
exist, what a directory listing looks like; every request starts one and every event the
environment may contribute continues one (`RunStarts`, `RunGoesOn`).  A run of the splitter
or the pool is any sequence of steps of its threads or calls; a step that is not possible
leaves the state as it is.

Provers are represented by what they prove: a `Receipt` says which segment, deferred input
or aggregate it stands for, and `Leaves` reads off what an aggregate was made from.

## Main results

- Whatever the schedule and the retries, the receipt in the snark task aggregates all
  segments in order and then all deferred inputs in order, each exactly once, at depth
  1 + ceil(log2 n) (`SnarkReceivesWholeJob`), and a run without error delivers it or the
  snark proof of it to snark_path (`Delivered`).
- A dependency slot is empty exactly when the task it named has succeeded
  (`SlotEmptyIffDone`); every call carries the outputs of finished tasks
  (`AggCallsComplete`); no lookup or assertion on the loop's path fails (`NeverPanics`).
- Every hand-out is exact: which call an iteration makes, when it makes none, and for the
  first of the tasks that wait (`ProveCallMade`, `AggCallMade`, `SplitSnarkCallMade`); the
  bound max_prover_num is reached (`BoundReached`).  So is every answer: what it does to its
  task, to the saved traces and to the run (`AnswerTaken`, `AnswerSaved`); a run is in error
  if and only if an answer has broken it (`InErrorIffBroken`).
- The list of segments follows segments.txt (`ListFollows`, `ReportedIsListed`), ends as the
  job's segments and deferred inputs (`DeferredInputsListed`), and no two tasks ever share a
  name (`NamesDiffer`).
- Work is neither lost nor doubled (`NothingLostOrDoubled`), exactly unless a reply loses
  its task (`ReceiveMatched`); the loop never stalls (`NoStall`); after the build at most
  6n + ceil(log2 n) decisive answers arrive (`AtMostSixPerLeaf`), and as many prompt
  iterations take the stage out of step Prove (`ProvingEnds`).
- With the quota in the picture: no snark call is ever refused and no work ever lost, as
  long as the provers answer with known codes, only the job's segment files are found, and a
  request from Agg has a quota (`NeverDoomed`, `WorkIsNeverLost`, `NeverStuck`).  Not being
  stuck is not success: a request whose skips fill its quota goes on asking and never gets
  done (`FullSkipsStarve`).
- What the pool of all stages does with one stage's calls is, move by move, a run of that
  stage's loop under its quota (`PoolMakesQuotaRun`), so that the two models agree.
- The parallel splitter refines the sequential one for every number of workers and every
  schedule (`RefinesSequentialRun`), cannot deadlock (`NoDeadlock`), and every schedule
  makes the same number of moves (`Terminates`, `FinishedWhenDone`).  With single records its
  files are all that the stage's loop waits for (`SplitterServes`).
- The splitter loses no event: each is with its record, in a late segment, or waiting, and in
  the end none waits (`EventsConserved`, `NoEventLeft`); with single records the files chain
  up by program counter (`PcChain`).
- One owner per node, over all stages and kinds of call (`MutualExclusion`); the counter
  counts the admitted calls and the skips, within its bound (`AdmissionControl`); each action
  leaves its node as it should (`NodesAfter`), and an offline node comes back
  (`OfflineReturns`).

## Where the code differs from its description

- The repository's README (lines 13-14) draws Snark -> End.  The event loop leaves before it dispatches once
  the snark task has succeeded, so that arm of `dispatch` is never taken and the last step
  reported is Snark (`StepsVisited`).
- The comment at `stage.rs:73-74` says a task that fails three times is an error.  The
  code errs on the fourth failure (`FourthFailureEnds`), and every request that proves
  segments has a run that gets there (`FourFailuresPossible`).
- `snark_proof` does not reset the state, so a call that the quota refuses comes back
  PROCESSING, which `on_task!` ignores: the stage then waits forever.  A snark call is
  refused exactly when the admitted calls and the skips fill the quota at one of its two
  checks (`RefusedIffFull`), and exactly that dooms the stage (`DoomedIff`).  A request from
  Agg can hang if and only if its quota is 0 (`AggHangsIffNoQuota`), which
  `stage_service.rs:427-430` leaves only to a service without configured nodes.  A request
  from Init can hang if and only if it targets Snark, is not composite and has a quota
  (`InitCanHangIff`): the proof builds the run, in which a segment file that is not the
  job's is found and a call for its task outlives the task.  In each run it happens exactly
  when such leftover calls, and skips, fill the quota (`InitHangsIffStraysFill`); if no
  segment files but the job's own are ever found, there are no such calls, and it never does
  (`CleanNeverDoomed`).
- An answer with the unspecified code loses its split, prove or agg task in the same way;
  the service's own provers never send it (`ReceiveMatched` has the exact condition).
- The same-node skip of `prove` keeps its count.  Without admitted calls a stage has room
  exactly as long as it was skipped less often than max_prover_num (`RoomUnlessSkipped`);
  after that it gets no call through any more (`StarvedForever`).  One node and one failure
  are enough (`OneSkipStarves`).  The request then stays in step Prove for good
  (`FullSkipsStarve`), and this can befall every request from Init that proves segments, and
  befalls every one without a quota (`CanStarveIff`).
- Numbering the segment files without gaps needs `records.len() == 1`, which is only a
  debug assertion: it is necessary and sufficient (`GapFree`, `SegmentsComplete`).
- Deferred files are numbered `(1 << 16) | i`, which keeps their order exactly up to 2^16
  of them (`NumberingKeepsOrder`).
- A job with no segments and no deferred inputs builds no tree, and the snark task gets
  the empty receipt (the exact condition is part of `SnarkReceivesWholeJob`).
- The first-generation builder panics on an empty list, and gives an odd leaf's agg_index
  out a second time (`IndicesDistinct` says when the indices are distinct).

## Assumptions

- UUIDs are fresh (a counter stands for them), and the clock does not run backwards.
- A successful split reports the job's number of segments; a successful prove, aggregate
  or snark answer carries the proof it was asked for.  Unsuccessful answers carry anything.
- The proof directory holds exactly the job's deferred inputs when the tree is built, at
  most 2^16 of them, and `vk.bin` and `receipt_inputs_path` are readable.
- `TurnBasedSync` lets a worker pass when the turn equals its index and advances by one.
- The checkpoint channel holds at least one checkpoint; tracing yields at least one record;
  `defer`, `append` and `split` of execution records are functions of their arguments.  Where
  events are counted, `append` adds at the end, and `defer` and `split` part what they get.
- A request starts at Init or Agg and targets Split, Agg or Snark, as `stage_service.rs`
  ensures.

## Model

| member | source | states |
|---|---|---|
| Tasks.ClearChildTask | proof-service/src/stage/tasks/agg_task.rs:45-57 | Empties the first slot with the identifier, only while UNPROCESSED, and says whether it did. |
| Receipts.LeavesOfPairs | proof-service/src/stage/stage.rs:492-505 | One layer of pairwise aggregation (odd one alone) keeps the leaf sequence. |
| AggPlan.PlanKids | proof-service/src/stage/stage.rs:473-505 | In the tree over n leaves every slot names an earlier node; first-layer tasks take one leaf each, later ones one or two agg tasks. |
| AggPlan.OneParent | proof-service/src/stage/stage.rs:492-505 | No node is named by two slots. |
| AggPlan.UniqueParent | proof-service/src/stage/stage.rs:492-505 | Every node but the last is named by exactly one slot. |
| AggPlan.PlanSize | proof-service/src/stage/stage.rs:473-505 | The list has ceil(n) + ceil(n/2) + ... + 1 entries, at most 2n + ceil(log2 n) - 1. |
| AggPlan.CeilLog2Meaning | proof-service/src/stage/stage.rs:493-505 | The number of layers above the first is the least k with n <= 2^k. |
| AggPlan.RootLeaves | proof-service/src/stage/stage.rs:448-510 | The last task aggregates all leaves, in order, each once, all at depth 1 + ceil(log2 n). |
| StageObject.NextTask | proof-service/src/stage/tasks/agg_task.rs:102-125 | A task over consecutive tasks of one layer is, field by field, the one the independent plan of the tree describes. |
| StageObject.Stage.FirstLayer | proof-service/src/stage/stage.rs:464-490 | The first layer: one task per normal prove task, then one per deferred one, flags included. |
| StageObject.Stage.NextAggLayer | proof-service/src/stage/stage.rs:494-505 | One turn of the while loop: one task per batch of two, numbered on, added to the list and to the new layer. |
| StageObject.Stage.UpperLayers | proof-service/src/stage/stage.rs:492-505 | The while loop completes the first layer to the whole tree. |
| StageObject.Stage.GenAggTasks | proof-service/src/stage/stage.rs:448-510 | The loops append the whole planned tree to agg_tasks and mark its last task final. |
| DeferredFiles.NumberingKeepsOrder | prover_v2/src/executor.rs:355-368 | (1 << 16) \| i is increasing on the first n indices if and only if n <= 2^16. |
| DeferredFiles.SortedPermutation | proof-service/src/stage/stage.rs:325 | Sorting by number orders the files and loses none. |
| DeferredFiles.ListingOrderIrrelevant | proof-service/src/stage/stage.rs:311-325 | Whatever order the directory is listed in, the deferred files come out in production order (up to 2^16 of them). |
| StageObject.Stage.constructor | proof-service/src/stage/stage.rs:102-115 | A new stage starts at from_step with default tasks. |
| StageObject.Stage.GenSplitTask | proof-service/src/stage/stage.rs:201-235 | The whole state after generating the split task; its assertion is the precondition. |
| StageObject.Stage.GetSplitTask | proof-service/src/stage/stage.rs:237-240 | Hands the split task out, marked and stamped, when it is UNPROCESSED or FAILED. |
| StageObject.Stage.OnSplitTask | proof-service/src/stage/stage.rs:242-247 | The whole state after an answer, and the stamp on the message. |
| StageObject.Stage.GenProveTask | proof-service/src/stage/stage.rs:267-295 | Preallocates 64 tasks, then extends up to the number in segments.txt; nothing for target Split or once the tree exists. |
| StageObject.Stage.GenProveTaskPost | proof-service/src/stage/stage.rs:297-343 | Cuts or extends the list to total_segments and appends the deferred inputs by number. |
| StageBuild.GenProvePostKeeps | proof-service/src/stage/stage.rs:297-343 | Exactly total_segments normal tasks remain, task i for file i, retained ones unchanged, identifiers unique, deferred inputs behind. |
| StageObject.Stage.GetProveTask | proof-service/src/stage/stage.rs:355-367 | Hands out the first ready task whose segment file exists. |
| StageObject.Stage.AcceptProveTask | proof-service/src/stage/stage.rs:56-88 | What an answer makes of the running task it names: state, stamp, output, failure count, error flag. |
| StageObject.Stage.OnProveTask | proof-service/src/stage/stage.rs:369-381 | The whole state after an answer, including the slot that a success empties. |
| StageObject.Stage.ClearAggChildTask | proof-service/src/stage/stage.rs:383-389 | Empties the first slot of the list that waits for the identifier. |
| StageObject.Stage.CountUnfinishedProveTasks | proof-service/src/stage/stage.rs:391-396 | The number of prove tasks not SUCCESS. |
| StageObject.Stage.CountProcessingProveTasks | proof-service/src/stage/stage.rs:398-403 | The number of prove tasks PROCESSING. |
| StageObject.Stage.GetAggTask | proof-service/src/stage/stage.rs:512-547 | Hands out the first unblocked ready task with each input filled from the task it names. |
| StageObject.Stage.OnAggTask | proof-service/src/stage/stage.rs:549-571 | The whole state after an answer, including the emptied slot and the write of snark_path. |
| StageObject.Stage.GenSnarkTask | proof-service/src/stage/stage.rs:573-612 | Takes the last final agg task's output, or the input receipt, by from_step; its assertion and unreachable arm are the precondition. |
| StageObject.Stage.GetSnarkTask | proof-service/src/stage/stage.rs:614-623 | Hands the snark task out when it is UNPROCESSED or FAILED. |
| StageObject.Stage.OnSnarkTask | proof-service/src/stage/stage.rs:625-633 | Every answer overwrites snark_path; the whole state after it. |
| StageObject.Stage.DispatchStep | proof-service/src/stage/stage.rs:117-188 | The whole state after dispatch, for every step. |
| StageInvariant.HolderIsParent | proof-service/src/stage/stage.rs:383-389 | Only one slot of the tree can hold a given identifier: that of the node's parent. |
| StageInvariant.ClearedList | proof-service/src/stage/stage.rs:383-389 | So clearing the first match empties exactly the parent's slot of the finished node. |
| StageInvariant.DoneStep | proof-service/src/stage/stage.rs:369-389 | Finishing a task and telling the list keeps identifiers, receipts and the slot invariant. |
| StageBuild.GenTasksKeeps | proof-service/src/stage/stage.rs:124-151 | Building the tree yields the slot invariant whichever prove tasks finished before. |
| StageSteps.OnProveKeeps | proof-service/src/stage/stage.rs:369-381 | Any answer to a prove task keeps the invariant, also one that names a task cut off the list. |
| StageSteps.GetAggKeeps | proof-service/src/stage/stage.rs:512-526 | Handing out an agg task keeps it. |
| StageSteps.OnAggKeeps | proof-service/src/stage/stage.rs:549-571 | Any answer to an agg task keeps it. |
| StageSteps.UnblockedKidsDone | proof-service/src/stage/stage.rs:514-518 | A task without waiting slots has only finished inputs, deferred ones included. |
| StageProgress.HandedOutComplete | proof-service/src/stage/stage.rs:512-547 | Both lookups succeed, and the task handed out carries the outputs of finished tasks, those its own receipt has to aggregate. |
| StageProgress.NoAggDeadlock | proof-service/src/stage/stage.rs:493-526 | With all segments proved and some agg task unfinished, one is in progress or can be handed out. |
| StageProgress.FourthFailureErrs | proof-service/src/stage/stage.rs:72-85 | A failure is an error if and only if the task had failed three times before; otherwise it is counted and the task is ready again. |
| WorkerRetries.FailuresCounted | proof-service/src/stage/stage.rs:56-88 | In every run the failure count of a listed task is the number of failed answers received about it, up to three, also across the build that cuts and extends the list. |
| WorkerRetries.FourthFailureEnds | proof-service/src/stage/stage.rs:72-85 | In every run, a segment's failure ends the run in error if and only if it is that segment's fourth. |
| WorkerRetries.NeverFifth | proof-service/src/stage/stage.rs:72-85 | No segment fails five times, and as long as the run goes on none has failed four times. |
| WorkerRetries.FourFailuresPossible | proof-service/src/stage/stage.rs:56-99 | Every request from Init that proves segments and has a quota has a run in which a segment fails three times, is tried again, and errs with its fourth failure. |
| StageProgress.ProveAnswerCounts | proof-service/src/stage/stage.rs:56-88 | A decisive answer to a running prove task errs or uses up an attempt; other messages change neither. |
| StageProgress.AggAnswerCounts | proof-service/src/stage/stage.rs:34-54 | The same for agg tasks. |
| StageWorkerObject.StageWorker.constructor | proof-service/src/stage/stage_worker.rs:61-142 | The loop starts after one dispatch of a new stage. |
| StageWorkerObject.StageWorker.CallProve | proof-service/src/stage/stage_worker.rs:181-200 | A prove call is made only below max_prover_num. |
| StageWorkerObject.StageWorker.CallAgg | proof-service/src/stage/stage_worker.rs:202-224 | An agg call is made only once the tree exists and few enough segments are open. |
| StageWorkerObject.StageWorker.TakeResult | proof-service/src/stage/stage_worker.rs:251-268 | The state after the result of a call of each kind, and the trace that is saved. |
| StageWorkerObject.StageWorker.Turn | proof-service/src/stage/stage_worker.rs:159-277 | One iteration equals the specified step and keeps the invariant. |
| StageWorkerObject.RunStageTask | proof-service/src/stage/stage_worker.rs:141-295 | The loop against any schedule ends in the state the runs below speak of. |
| WorkerInvariant.GenTasksCover | proof-service/src/stage/stage.rs:297-343 | After the build the prove list stands for exactly the job's segments and deferred inputs, in order. |
| WorkerInvariant.GenTasksCalls | proof-service/src/stage/stage.rs:124-151 | Calls outstanding while the list is cut or extended stay valid. |
| WorkerInvariant.RunInv | proof-service/src/stage/stage_worker.rs:159-295 | The invariant holds at every moment of every run. |
| WorkerSafety.SnarkReceivesWholeJob | proof-service/src/stage/stage.rs:447-592 | In step Snark from Init, the receipt has all segments, then all deferred inputs, in order, each once, exactly when the job has any. |
| WorkerSafety.SnarkCallsCarryReceipt | proof-service/src/stage/stage.rs:584-622 | Every snark call carries that receipt, or the input receipt for a run from Agg. |
| WorkerSafety.NeverPanics | proof-service/src/stage/stage.rs:531-541 | In every reachable state the lookups succeed and dispatch's assertions and unreachable arm are not reached. |
| WorkerSafety.SlotEmptyIffDone | proof-service/src/stage/stage.rs:141-151 | In every run with a tree, a slot is empty if and only if the task it named is SUCCESS. |
| WorkerSafety.TreeShape | proof-service/src/stage/stage.rs:448-510 | In every run with a tree: its size, children first, agg_index equal to the position, only the last final; exactly the first n are leaf tasks, and exactly the first, if it is over a segment, holds the first shard. |
| WorkerSafety.AggCallsComplete | proof-service/src/stage/stage.rs:528-545 | Every outstanding agg call's task is in progress, its inputs are the receipts to be aggregated, and it is sent with the flags of its place: leaf layer, first shard, final, deferred, index. |
| WorkerSafety.Delivered | proof-service/src/stage/stage_worker.rs:274-314 | A run from Init without error leaves the root aggregate or the snark proof of it in snark_path. |
| WorkerSafety.StepsVisited | proof-service/src/stage/stage.rs:117-188 | Runs from Init stay in Prove and then, for good, in Snark or End; runs from Agg stay in Snark. |
| WorkerSafety.SuccessIsPermanent | proof-service/src/stage/stage.rs:355-381 | Along every run finished tasks keep state and output, and nothing is generated twice. |
| WorkerLiveness.ReceiveMatched | proof-service/src/stage/stage_worker.rs:248-273 | After a reply, work in progress and outstanding calls still match if and only if the reply does not lose its task. |
| WorkerProgress.NothingLostOrDoubled | proof-service/src/stage/stage_worker.rs:159-273 | In every run without such replies each task has one outstanding call if it is in progress and none otherwise. |
| WorkerProgress.NeverMoreThanMax | proof-service/src/stage/stage_worker.rs:181-200 | At most max_prover_num segments are in progress, in every run. |
| WorkerBounds.NoStall | proof-service/src/stage/stage_worker.rs:159-277 | An unfinished stage has an outstanding call, makes one now, or ends in the next iteration; segment files are needed only for the unproved tasks of a final list. |
| WorkerBounds.AnswersBounded | proof-service/src/stage/stage.rs:34-88 | In every run, decisive answers since the build plus the work remaining never exceed a bound fixed by the job. |
| WorkerBounds.AtMostSixPerLeaf | proof-service/src/stage/stage.rs:34-88 | The bound: 6n + ceil(log2 n) answers for n leaves, one fewer without error. |
| SplitHandover.SplitterServes | proof-service/src/stage/stage.rs:355-367 | With single records the files of a finished splitter are all that any stage of the job waits for; otherwise a stage that has proved no segment waits for one that is missing. |
| WorkerTermination.PromptAnswers | proof-service/src/stage/stage_worker.rs:181-225 | In step Prove with the tree built, a call about a listed task is outstanding once the tasks are handed out, so an iteration that answers such calls promptly receives a decisive answer. |
| WorkerTermination.ProvingEnds | proof-service/src/stage/stage_worker.rs:159-277 | After the build, more prompt iterations than the answer bound take the stage out of step Prove or to its end. |
| QuotaInvariant.QuotaInv | proof-service/src/prover_client.rs:112-172 | At every moment cur_prover_num is the number of admitted calls plus the same-node skips, at most max_prover_num, and the loop's invariant holds. |
| QuotaInvariant.LoopMakesRun | proof-service/src/stage/stage_worker.rs:159-277 | Whatever its calls do under the quota, the loop makes one of the runs the other results speak of. |
| QuotaInvariant.RefusedIffFull | proof-service/src/prover_client.rs:412-437 | A snark call is turned away if and only if at one of its two checks admitted calls and skips reach max_prover_num. |
| QuotaInvariant.DoomedIff | proof-service/src/prover_client.rs:406-437 | A move leaves the snark task waiting for nothing if and only if it is such a check, or it was so before. |
| QuotaInvariant.DoomedForever | proof-service/src/stage/stage_worker.rs:226-276 | Such a stage never ends. |
| QuotaResults.AggHangsIffNoQuota | proof-service/src/stage/stage_service.rs:427-430 | A request from Agg can hang if and only if its quota is 0. |
| QuotaResults.InitHangsIffStraysFill | proof-service/src/prover_client.rs:412-437 | A run from Init becomes doomed if and only if, at a check of the snark call, leftover calls for cut-off tasks and skips fill the quota. |
| QuotaWitness.InitCanHangIff | proof-service/src/stage/stage_worker.rs:226-276 | A request from Init can hang if and only if it targets Snark, is not composite and has a quota; one direction builds the run for every quota. |
| QuotaClean.CleanNeverDoomed | proof-service/src/stage/stage.rs:297-309 | If only the job's segment files are ever found, no run from Init is doomed, whatever its quota and its skips. |
| QuotaClean.WorkIsNeverLost | proof-service/src/stage/stage_worker.rs:159-273 | Then, with known result codes, each task has one outstanding call if it is in progress and none otherwise. |
| QuotaClean.NeverStuck | proof-service/src/stage/stage_worker.rs:159-277 | Then the loop has ended, has an outstanding call, makes one, or ends with the next turn; the calls of a starved stage are made and refused for ever. |
| QuotaClean.StarvedForGood | proof-service/src/prover_client.rs:214-245 | In every run from Init, skips that fill the quota while some call's answer is still needed keep the stage in step Prove for good. |
| QuotaClean.FullSkipsStarve | proof-service/src/prover_client.rs:238-245 | If only the job's segment files are found, skips that fill the quota always do so: the request never succeeds. |
| QuotaStarvation.CanStarveIff | proof-service/src/prover_client.rs:238-245 | Even so the skips can fill the quota of a request from Init if and only if it proves segments or has no quota. |
| WorkerHandOuts.ProveCallMade | proof-service/src/stage/stage_worker.rs:181-200 | In every run an iteration makes one prove call, about the first waiting segment whose file is found, stamped with the time, if and only if one waits and fewer than max_prover_num are in progress. |
| WorkerHandOuts.AggCallMade | proof-service/src/stage/stage_worker.rs:202-224 | It makes one agg call, about the first aggregation that waits for nothing, if and only if there is one, the tree exists and fewer than max_prover_num segments are open. |
| WorkerHandOuts.SplitSnarkCallMade | proof-service/src/stage/stage_worker.rs:163-180 | It makes a split or snark call if and only if the task waits in its step, stamped with the time. |
| WorkerLoad.BoundReached | proof-service/src/stage/stage_worker.rs:181-200 | Every request from Init that proves segments has a run with max_prover_num prove calls outstanding at once. |
| WorkerLists.ListFollows | proof-service/src/stage/stage.rs:267-295 | Over every iteration without a tree, the list has exactly max(old length, 64, the number in segments.txt) tasks; old ones stay, task i is for file i and new ones wait. |
| WorkerLists.ReportedIsListed | proof-service/src/stage/stage.rs:277-294 | In every run, as long as there is no tree, every file below a number that segments.txt has reported has its task. |
| WorkerLists.DeferredInputsListed | proof-service/src/stage/stage.rs:311-342 | In every run with a tree, the tasks behind the segments are the job's deferred inputs in order, done, under file numbers from 2^16. |
| WorkerAnswers.AnswerTaken | proof-service/src/stage/stage.rs:27-88 | In every run, an answer does to its task what its code says: state, time stamp, node, output, totals; nothing else changes but slots, error and snark_path, and for each of these it is said how. |
| WorkerAnswers.AnswerSaved | proof-service/src/stage/stage_worker.rs:251-268 | The worker saves a trace exactly for final answers of split and snark calls: when made, when back, from where. |
| WorkerAnswers.BreaksEndRun | proof-service/src/stage/stage_worker.rs:274-276 | An iteration puts the stage in error, and ends the run, if and only if it receives a failed split, aggregation or snark proof or a segment's fourth failure. |
| WorkerAnswers.InErrorIffBroken | proof-service/src/stage/stage.rs:49-85 | A run is in error if and only if it has received such an answer. |
| WorkerNames.NamesDiffer | proof-service/src/stage/stage.rs:201-343 | In every run all identifiers in use are different: split, segments, deferred inputs, aggregations, snark. |
| WorkerClock.DurationsDefined | proof-service/src/stage/tasks/mod.rs:49-54 | duration() never underflows for a saved task, nor for any task printed at success. |
| WorkerClock.RetryHasNoDuration | proof-service/src/stage/stage.rs:90-99 | In every run, duration() of a task in progress underflows unless its start equals its finish stamp, that is, unless the clock stood still. |
| AggTreeV1.StageV1.GenAggTasks | proof-service/src/stage/stage.rs:406-445 | The loops append the first-generation tree and mark its last entry final; an empty list is excluded as it panics. |
| AggTreeV1.TreeSize | proof-service/src/stage/stage.rs:406-445 | The list has 2 * ceil(n/2) - 1 entries, never more than prove tasks. |
| AggTreeV1.TreeBinary | proof-service/src/stage/tasks/agg_task.rs:129-183 | Every entry aggregates two others and waits for both, except the placeholder of an odd prove task, which is done and bears its name. |
| AggTreeV1.TreeInputs | proof-service/src/stage/tasks/agg_task.rs:59-66 | Every input names a prove task, or an earlier entry that really aggregates. |
| AggTreeV1.RootAggregatesAll | proof-service/src/stage/stage.rs:406-445 | Over any prove tasks with older identifiers, the receipt of the last entry, computed through the identifiers of the inputs, aggregates all of them in order, each once. |
| AggTreeV1.RootReadsAll | proof-service/src/stage/stage.rs:406-445 | Every other consistent reading of the identifiers gives the last entry the same leaves. |
| AggTreeV1.OnlyRootFinal | proof-service/src/stage/stage.rs:443-444 | That entry alone is final. |
| AggTreeV1.IndicesDistinct | proof-service/src/stage/stage.rs:419-431 | agg_index is unique if and only if n is even or 1. |
| SplitFold.Splitter.ProcessCheckpoint | prover_v2/src/executor.rs:244-328 | The loops over the records do to the shared variables and the files what the specified update does. |
| SplitFold.SplitSequentially | prover_v2/src/executor.rs:207-328 | One worker alone performs the fold over all checkpoints. |
| SplitFold.ProcessShards | prover_v2/src/executor.rs:244-308 | How one checkpoint's segments are numbered and sharded, for any number of records. |
| SplitFold.GapFree | prover_v2/src/executor.rs:288-321 | The files are numbered without a gap if and only if every checkpoint is traced into one record. |
| SplitFold.FileShards | prover_v2/src/executor.rs:246-321 | With one record each, every index has its file and segment x carries shard start + x + 1. |
| SplitValues.EntryEvents | prover_v2/src/executor.rs:259-267 | The late segments of a checkpoint are, in order, the records split off the events that waited and those its records gave up; the rest waits on. |
| SplitValues.EventsConserved | prover_v2/src/executor.rs:259-267 | After any number of checkpoints each traced event is in exactly one place: kept with its record, in a late segment, or waiting. |
| SplitValues.NoEventLeft | prover_v2/src/executor.rs:259-267 | After the last checkpoint none waits. |
| SplitValues.StateSegment | prover_v2/src/executor.rs:244-257 | The state segment carries its first record's pcs, digests and execution shard, the next shard number and the address bits found. |
| SplitValues.LateSegments | prover_v2/src/executor.rs:269-286 | Late segments carry their own address bits, start and end at the last record's next pc, keep its digests, and are one execution shard on unless the checkpoint was the last; the address bits are handed on. |
| SplitValues.PcChain | prover_v2/src/executor.rs:244-328 | With single records traced end to end, every segment file starts where the one before it ends. |
| SplitPipeline.RefinesSequentialRun | prover_v2/src/executor.rs:186-329 | For any number of workers and any schedule, the final public values, deferred events, index and files are the sequential ones, and no file is written twice. |
| SplitPipeline.FilesNeverWrong | prover_v2/src/executor.rs:310-328 | At every moment each file written is the one the sequential run leaves under that number at its end, and written once. |
| SplitPipeline.SegmentsComplete | prover_v2/src/executor.rs:288-328 | At the end every index below the reported total has its file if and only if records were single, and then shards follow the index. |
| SplitPipeline.NoDeadlock | prover_v2/src/executor.rs:143-299 | Until all workers have stopped, some thread can move. |
| SplitPipeline.Terminates | prover_v2/src/executor.rs:151-373 | Moves made plus work left is the same number in every schedule. |
| SplitPipeline.FinishedWhenDone | prover_v2/src/executor.rs:151-388 | All workers have stopped if and only if that number of moves has been made. |
| NodePool.Pool.AddNode | proof-service/src/prover_node.rs:40-47 | A new node is Idle and not connected. |
| NodePool.Pool.CheckQuota | proof-service/src/prover_client.rs:113-118 | The first quota check admits a call if and only if the counter is below its limit. |
| NodePool.Pool.TryNode | proof-service/src/prover_client.rs:58-75 | A node is taken if it is Idle, or offline for at least 180 seconds, and is then Busy. |
| NodePool.Pool.IsActive | proof-service/src/prover_node.rs:57-99 | A node answers if its client is set or a connection succeeds, which sets it. |
| NodePool.Pool.TryEnter | proof-service/src/prover_client.rs:225-239 | The second quota check counts the call or gives the node back. |
| NodePool.Pool.Leave | proof-service/src/prover_client.rs:268-277 | Takes one off the counter, which must be positive. |
| ProverCalls.AdmissionControl | proof-service/src/prover_client.rs:112-172 | In every run, in-flight requests <= counter <= max_prover_num, and the counter is the admitted calls plus the same-node skips. |
| ProverCalls.NoUnderflow | proof-service/src/prover_client.rs:268-277 | The decrement never underflows. |
| ProverCalls.MutualExclusion | proof-service/src/prover_client.rs:50-93 | At most one call owns a node; a node is Busy if and only if it is owned or a single-node call left it behind. |
| ProverCalls.OfflineRests | proof-service/src/prover_client.rs:64-84 | From any reachable state, a node offline since ts stays so until ts + 180. |
| ProverCalls.StarvedForever | proof-service/src/prover_client.rs:238-245 | Once the skips reach max_prover_num, no call of the stage is ever admitted again. |
| ProverCalls.RoomUnlessSkipped | proof-service/src/prover_client.rs:214-245 | In every run, a stage without admitted calls has room if and only if its skips are fewer than max_prover_num. |
| PoolNodes.TriedNode | proof-service/src/prover_client.rs:58-75 | In every reachable state a call takes the node it tries if and only if it is Idle, or offline for 180 seconds; then it is Busy, and not connected if it was offline. |
| PoolNodes.NoCandidateLeft | proof-service/src/prover_client.rs:58-93 | With no candidate left a call ends without a node; a single-node call begins again. |
| PoolNodes.Connected | proof-service/src/prover_client.rs:77-90 | A node that is connected or reachable is the call's; otherwise it is offline from now and the call tries the next. |
| PoolNodes.NodesAfter | proof-service/src/prover_client.rs:58-90 | Each action changes at most the status of the node it is about: Busy when taken, offline after a failed connection or response, Idle when given back or after any other reply. |
| PoolNodes.CountAfter | proof-service/src/prover_client.rs:225-277 | A counter goes up exactly with a call that passes the second check below the limit, and down exactly with a response. |
| PoolNodes.OfflineReturns | proof-service/src/prover_client.rs:64-75 | From every reachable state, an offline node can be taken again three minutes later by a call of any stage that has room. |
| PoolNodes.SnarkOnFirstNode | proof-service/src/prover_client.rs:33-48 | Snark calls never hold any node but the first. |
| PoolProjection.PoolMakesQuotaRun | proof-service/src/prover_client.rs:112-290 | Whatever the pool does for whichever stages, and whenever one stage's loop hands out and receives, that loop makes one of the runs under the quota that the results above speak of. |
| ProverCalls.OneSkipStarves | proof-service/src/prover_client.rs:238-245 | One node and quota 1: a segment that fails and is tried again starves its stage. |

## Left out

- StageV1.GenAggTasks: needs at least one prove task, as the source panics on none.
- NoStall: needs max_prover_num to be positive, replies that do not lose their task, and,
  once the list is final, the files of the segments still to be proved (which a splitter
  with single records leaves: `SplitterServes`).
- NeverStuck: speaks of calls being made, not of their being admitted; `FullSkipsStarve` says
  when they never are again.
- PoolMakesQuotaRun: a reply's node name is the pool's name of the node, and a failed task
  remembers the node by that name.
- ProvingEnds: counts iterations, not time; how soon a prover answers is not modelled.
- ListingOrderIrrelevant: up to 2^16 deferred files; beyond, numbers collide.
- RefinesSequentialRun: tracing yields at least one record per checkpoint; the source
  panics otherwise.
- The provers, circuits and the zkVM runtime: their answers are receipts, records and
  checkpoints here.
- gRPC, TLS, S3, metrics, logging, configuration: calls are made and answered by events.
- The database rows, check_at and the reload of tasks at start-up.
- Request validation, signatures and paths in `stage_service.rs`, beyond which steps a
  request can ask for.
- The single-node path in the stage; the pool has its calls, since they share the nodes.
- The first-generation stage, except its tree builder; its executor.
- Key and program caches, cancellation, panics inside a call and poisoned locks.
- The deferred-proof files that the last worker writes, except their numbering.
- errmsg, tracing text, and fields that are only copied (paths, program and block numbers).
- Integer widths: counters, indices and time stamps are unbounded here (the source has
  u32, u64, usize and i32); where the source subtracts, the difference is proved defined.
- The number in segments.txt is read whole; torn reads of that file are not modelled.
- A checkpoint channel of capacity 0, and a splitter without workers.
