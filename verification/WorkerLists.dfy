/** How the list of segments follows the splitter: over every iteration without a tree it has
    exactly the tasks that the number in segments.txt asks for. */
module WorkerLists {
  import opened Receipts
  import opened DeferredFiles
  import opened Tasks
  import opened StageSpec
  import opened StageInvariant
  import opened StageBuild
  import opened StageSteps
  import opened WorkerSpec
  import opened WorkerInvariant
  import opened WorkerSafety
  import opened WorkerRetries

  function Max(a: nat, b: nat): nat {
    if a < b then b else a
  }

  /** The number in segments.txt, if it can be read. */
  function Reported(e: Event): nat {
    if e.segmentsTxt.Some? then e.segmentsTxt.value else 0
  }

  /** Without a tree, the list is empty or has been preallocated. */
  predicate EmptyOrLong(s: StageState) {
    !s.tasksGenDone ==> s.proveTasks == [] || |s.proveTasks| >= 64
  }

  /** after is before, continued with waiting tasks for the files that follow. */
  ghost predicate Continues(before: seq<ProveTask>, after: seq<ProveTask>, n: nat) {
    && |after| == n >= |before| && after[..|before|] == before
    && forall i :: |before| <= i < n ==>
         after[i].fileNo == i && after[i].state == Unprocessed && !after[i].isDeferred && after[i].failureCount == 0
  }

  lemma {:induction false} ExtendContinues(s: StageState, n: nat)
    ensures Continues(s.proveTasks, ExtendTo(s, n).proveTasks, Max(|s.proveTasks|, n))
  {
    var s1 := ExtendTo(s, n);
    assert s1.proveTasks[..|s.proveTasks|] == s.proveTasks;
  }

  lemma ContinuesTwice(a: seq<ProveTask>, b: seq<ProveTask>, c: seq<ProveTask>, n: nat, m: nat)
    requires Continues(a, b, n) && Continues(b, c, m)
    ensures Continues(a, c, m)
  {
    assert c[..|a|] == b[..|a|];
  }

  lemma {:induction false} GenProveContinues(s: StageState, segmentsTxt: Option<nat>)
    requires EmptyOrLong(s) && !s.tasksGenDone && s.gen.targetStep != Split
    ensures var n := if segmentsTxt.Some? then segmentsTxt.value else 0;
      Continues(s.proveTasks, GenProve(s, segmentsTxt).proveTasks, Max(Max(|s.proveTasks|, 64), n))
  {
    var s1 := if s.proveTasks == [] then ExtendTo(s, PREALLOCATED) else s;
    ExtendContinues(s, PREALLOCATED);
    if segmentsTxt.Some? {
      ExtendContinues(s1, segmentsTxt.value);
      ContinuesTwice(s.proveTasks, s1.proveTasks, GenProve(s, segmentsTxt).proveTasks,
                     |s1.proveTasks|, |GenProve(s, segmentsTxt).proveTasks|);
    }
  }

  // Over a run

  /** The worker of iteration k before it dispatches. */
  function BeforeDispatch(h: History, k: nat): Worker
    requires k < |h.events| && k < |h.states|
  {
    Receive(Spawn(h.states[k], h.events[k]), h.events[k].delivery, h.events[k].receiveAt)
  }

  lemma ReceiveLength(w: Worker, delivery: Option<Delivery>, now: nat)
    ensures |Receive(w, delivery, now).stage.proveTasks| == |w.stage.proveTasks|
  {
  }

  lemma {:induction false} BeforeLength(h: History, k: nat)
    requires IsRun(h) && k < |h.events|
    ensures |BeforeDispatch(h, k).stage.proveTasks| == |h.states[k].stage.proveTasks|
    ensures SamePhase(h.states[k], BeforeDispatch(h, k))
  {
    var w, e := h.states[k], h.events[k];
    RunInv(h, k);
    ListedCounts(w.stage);
    SpawnCounts(w, e);
    ReceiveLength(Spawn(w, e), e.delivery, e.receiveAt);
    BeforeFinish(w, e);
  }

  /** An iteration of an unfinished loop after which there is no tree yet. */
  ghost predicate Splitting(h: History, k: nat) {
    && IsRun(h) && k < |h.events| && h.gen.targetStep != Split
    && h.states[k].stage.step == Prove && !h.states[k + 1].stage.tasksGenDone && !h.states[k + 1].finished
  }

  lemma {:induction false} SplittingBefore(h: History, k: nat)
    requires Splitting(h, k)
    ensures var w := BeforeDispatch(h, k);
      && !h.states[k].finished && !h.states[k].stage.tasksGenDone && w.stage.step == Prove && !w.stage.tasksGenDone
      && w.stage.gen == h.gen
      && h.states[k + 1].stage == DispatchProve(w.stage, h.events[k].segmentsTxt, h.events[k].listing)
  {
    assert Follows(h, k + 1);
    RunInv(h, k);
    RunGen(h, k);
    BeforeLength(h, k);
    StepsVisited(h, k, k);
    IterateStep(h.states[k], h.events[k]);
  }

  lemma {:induction false} NoTreeNoAdvance(s: StageState, segmentsTxt: Option<nat>, listing: seq<DirEntry>)
    requires s.gen.targetStep != Split && !DispatchProve(s, segmentsTxt, listing).tasksGenDone
    ensures DispatchProve(s, segmentsTxt, listing) == GenProve(s, segmentsTxt)
  {
    AdvancePhase(GenTasks(GenProve(s, segmentsTxt), listing));
    AdvancePhase(GenProve(s, segmentsTxt));
    GenTasksPhase(GenProve(s, segmentsTxt), listing);
  }

  lemma FinishOutside(w: Worker, e: Event)
    requires !w.finished && (w.stage.step == StageSpec.Snark || w.stage.step == End || Finish(w, e).finished)
    ensures Finish(w, e).stage.proveTasks == w.stage.proveTasks
    ensures Finish(w, e).stage.tasksGenDone == w.stage.tasksGenDone
  {
  }

  /** Every other iteration leaves the length of the list, or a tree. */
  lemma {:induction false} OutsideSplitting(h: History, k: nat)
    requires IsRun(h) && k < |h.events| && !Splitting(h, k) && h.gen.targetStep != Split
    requires !h.states[k + 1].stage.tasksGenDone
    ensures |h.states[k + 1].stage.proveTasks| == |h.states[k].stage.proveTasks| && !h.states[k].stage.tasksGenDone
  {
    assert Follows(h, k + 1);
    if !h.states[k].finished {
      BeforeLength(h, k);
      StepsVisited(h, k, k);
      FinishOutside(BeforeDispatch(h, k), h.events[k]);
    }
  }

  lemma {:induction false} TargetSplitEmpty(h: History, k: nat)
    requires IsRun(h) && k < |h.states| && h.gen.targetStep == Split
    ensures h.states[k].stage.proveTasks == []
  {
    RunInv(h, k);
    RunGen(h, k);
  }

  lemma {:induction false} SplittingLong(h: History, k: nat)
    requires Splitting(h, k) && EmptyOrLong(h.states[k].stage)
    ensures EmptyOrLong(h.states[k + 1].stage)
  {
    var w := BeforeDispatch(h, k);
    SplittingBefore(h, k);
    BeforeLength(h, k);
    NoTreeNoAdvance(w.stage, h.events[k].segmentsTxt, h.events[k].listing);
    GenProveContinues(w.stage, h.events[k].segmentsTxt);
  }

  lemma {:induction false} StaysLong(h: History, k: nat)
    requires IsRun(h) && k < |h.events| && EmptyOrLong(h.states[k].stage)
    ensures EmptyOrLong(h.states[k + 1].stage)
  {
    if h.gen.targetStep == Split {
      TargetSplitEmpty(h, k + 1);
    } else if Splitting(h, k) {
      SplittingLong(h, k);
    } else if !h.states[k + 1].stage.tasksGenDone {
      OutsideSplitting(h, k);
    }
  }

  lemma {:induction false} RunLong(h: History, k: nat)
    requires IsRun(h) && k <= |h.events|
    ensures EmptyOrLong(h.states[k].stage)
  {
    if k > 0 {
      RunLong(h, k - 1);
      StaysLong(h, k - 1);
    } else {
      assert Follows(h, 0);
    }
  }

  /** Task i is for file i. */
  ghost predicate FilesInOrder(ts: seq<ProveTask>) {
    forall i :: 0 <= i < |ts| ==> ts[i].fileNo == i && !ts[i].isDeferred
  }

  /** Over every iteration that leaves no tree, the list grows to the number in segments.txt, and
      to 64 at least; what was listed stays, and task i is for file i. */
  lemma {:induction false} ListFollows(h: History, k: nat)
    requires Splitting(h, k)
    ensures Continues(
      BeforeDispatch(h, k).stage.proveTasks, h.states[k + 1].stage.proveTasks,
      Max(Max(|h.states[k].stage.proveTasks|, 64), Reported(h.events[k])))
    ensures FilesInOrder(h.states[k + 1].stage.proveTasks)
  {
    var w := BeforeDispatch(h, k);
    SplittingBefore(h, k);
    BeforeLength(h, k);
    RunLong(h, k);
    NoTreeNoAdvance(w.stage, h.events[k].segmentsTxt, h.events[k].listing);
    GenProveContinues(w.stage, h.events[k].segmentsTxt);
    RunFiles(h, k + 1);
  }

  lemma {:induction false} RunFiles(h: History, k: nat)
    requires IsRun(h) && k < |h.states| && !h.states[k].stage.tasksGenDone
    ensures FilesInOrder(h.states[k].stage.proveTasks)
  {
    RunInv(h, k);
    forall i | 0 <= i < |h.states[k].stage.proveTasks|
      ensures h.states[k].stage.proveTasks[i].fileNo == i && !h.states[k].stage.proveTasks[i].isDeferred
    {
      assert ProveOk(h.states[k].stage.proveTasks[i], i);
    }
  }

  lemma {:induction false} SplittingEarlier(h: History, k: nat)
    requires IsRun(h) && 0 < k <= |h.events| && h.gen.targetStep != Split
    requires h.states[k].stage.step == Prove && !h.states[k].stage.tasksGenDone && !h.states[k].finished
    ensures Splitting(h, k - 1) && !h.states[k - 1].finished && !h.states[k - 1].stage.tasksGenDone
  {
    assert Follows(h, k);
    StepsVisited(h, k - 1, k);
    SplittingBefore(h, k - 1);
  }

  /** In every run, as long as there is no tree, each file below a number that segments.txt has
      reported has its task on the list. */
  lemma {:induction false} ReportedIsListed(h: History, j: nat, k: nat, x: nat)
    requires IsRun(h) && j < k <= |h.events| && h.gen.targetStep != Split && x < Reported(h.events[j])
    requires h.states[k].stage.step == Prove && !h.states[k].stage.tasksGenDone && !h.states[k].finished
    ensures x < |h.states[k].stage.proveTasks| && h.states[k].stage.proveTasks[x].fileNo == x
    ensures !h.states[k].stage.proveTasks[x].isDeferred
    decreases k
  {
    SplittingEarlier(h, k);
    ListFollows(h, k - 1);
    if j < k - 1 {
      ReportedIsListed(h, j, k - 1, x);
    }
  }

  // The deferred inputs

  /** The tasks behind the segments are the job's deferred inputs, done and numbered from 2^16. */
  ghost predicate DeferredListed(ts: seq<ProveTask>, job: Job) {
    && |ts| == job.segments + job.deferred
    && forall i :: job.segments <= i < |ts| ==> IsDeferredInput(ts[i], i - job.segments)
  }

  predicate IsDeferredInput(t: ProveTask, j: int) {
    j >= 0 && t.isDeferred && t.state == Success && t.fileNo == 0x1_0000 + j && t.output == DeferredInput(j)
  }

  lemma {:induction false} NumberedFrom(job: Job, id: TaskId, j: nat)
    requires j < job.deferred <= FIRST_NUMBER
    ensures IsDeferredInput(DeferredTasks(Produced(DeferredInputs(job.deferred)), id)[j], j)
  {
  }

  lemma {:induction false} BuildListsDeferred(s: StageState, listing: seq<DirEntry>, job: Job)
    requires TasksOk(s) && !s.tasksGenDone && s.splitTask.totalSegments == job.segments && ListingFits(job, listing)
    ensures DeferredListed(GenTasks(s, listing).proveTasks, job)
  {
    var inputs, fit, ts := DeferredInputs(job.deferred), Fit(s), GenTasks(s, listing).proveTasks;
    var more := DeferredTasks(Produced(inputs), fit.nextId);
    FitKeeps(s);
    ListingOrderIrrelevant(listing, inputs);
    GenTasksList(s, listing);
    assert ts == fit.proveTasks + more && |fit.proveTasks| == job.segments;
    forall i | job.segments <= i < |ts|
      ensures IsDeferredInput(ts[i], i - job.segments)
    {
      NumberedFrom(job, fit.nextId, i - job.segments);
    }
  }

  lemma {:induction false} DispatchListsDeferred(s: StageState, e: Event, job: Job)
    requires TasksOk(s) && Rest(s, job) && s.step == Prove && !s.tasksGenDone && ListingFits(job, e.listing)
    requires Dispatch(s, e.segmentsTxt, e.listing).tasksGenDone
    ensures DeferredListed(Dispatch(s, e.segmentsTxt, e.listing).proveTasks, job)
  {
    var s1 := GenProve(s, e.segmentsTxt);
    GenProveKeeps(s, e.segmentsTxt);
    GenProvePhase(s, e.segmentsTxt);
    DispatchPhase(s, e.segmentsTxt, e.listing);
    TreeFromBuild(s, e.segmentsTxt, e.listing);
    BuildListsDeferred(s1, e.listing, job);
  }

  lemma TreeFromBuild(s: StageState, segmentsTxt: Option<nat>, listing: seq<DirEntry>)
    requires !s.tasksGenDone && Prepared(s, segmentsTxt, listing).tasksGenDone
    ensures GenProve(s, segmentsTxt).splitTask.state == Success
    ensures Prepared(s, segmentsTxt, listing) == GenTasks(GenProve(s, segmentsTxt), listing)
  {
    GenProvePhase(s, segmentsTxt);
  }

  lemma {:induction false} DeferredStay(h: History, k: nat)
    requires IsRun(h) && k < |h.events|
    requires h.states[k].stage.tasksGenDone && DeferredListed(h.states[k].stage.proveTasks, h.job)
    ensures DeferredListed(h.states[k + 1].stage.proveTasks, h.job)
  {
    StepSuccess(h, k + 1);
  }

  lemma {:induction false} DeferredNew(h: History, k: nat)
    requires IsRun(h) && k < |h.events| && !h.states[k].stage.tasksGenDone && h.states[k + 1].stage.tasksGenDone
    ensures DeferredListed(h.states[k + 1].stage.proveTasks, h.job)
  {
    var w, e := h.states[k], h.events[k];
    var w2 := BeforeDispatch(h, k);
    assert Follows(h, k + 1);
    RunInv(h, k);
    SpawnInv(w, e, h.job);
    ReceiveCore(Spawn(w, e), e, h.job);
    BeforeLength(h, k);
    StepsVisited(h, k, k);
    if !w.finished && w2.stage.step == Prove && !IsSuccess(w2.stage) && !w2.stage.isError {
      DispatchListsDeferred(w2.stage, e, h.job);
    } else if !w.finished {
      FinishOutside(w2, e);
    }
  }

  lemma {:induction false} StartHasNoTree(h: History)
    requires IsRun(h)
    ensures !h.states[0].stage.tasksGenDone
  {
    assert Follows(h, 0);
  }

  /** In every run with a tree, the list is the job's segments and then its deferred inputs, in
      order and under their file numbers. */
  lemma {:induction false} DeferredInputsListed(h: History, k: nat)
    requires IsRun(h) && k <= |h.events| && h.states[k].stage.tasksGenDone
    ensures DeferredListed(h.states[k].stage.proveTasks, h.job)
  {
    StartHasNoTree(h);
    if h.states[k - 1].stage.tasksGenDone {
      DeferredInputsListed(h, k - 1);
      DeferredStay(h, k - 1);
    } else {
      DeferredNew(h, k - 1);
    }
  }
}
