/** Safety over whole runs: what the snark step receives, what is delivered, which steps
    are visited, and that finished work stays finished. */
module WorkerSafety {
  import opened Receipts
  import opened AggPlan
  import opened DeferredFiles
  import opened Tasks
  import opened ProverReplies
  import opened StageSpec
  import opened StageInvariant
  import opened StageSteps
  import opened StageBuild
  import opened StageProgress
  import opened WorkerSpec
  import opened WorkerCalls
  import opened WorkerInvariant

  /** Handing out and receiving tasks never changes the request, the step or the phase. */
  ghost predicate SamePhase(w: Worker, w1: Worker) {
    && w1.stage.gen == w.stage.gen && w1.stage.step == w.stage.step
    && w1.stage.tasksGenDone == w.stage.tasksGenDone && w1.finished == w.finished
  }

  lemma SpawnSplitPhase(w: Worker, now: nat)
    ensures SamePhase(w, SpawnSplit(w, now))
  {
  }

  lemma SpawnProvePhase(w: Worker, segments: set<nat>, now: nat)
    ensures SamePhase(w, SpawnProve(w, segments, now))
  {
  }

  lemma SpawnAggPhase(w: Worker, now: nat)
    ensures SamePhase(w, SpawnAgg(w, now))
  {
  }

  lemma SpawnSnarkPhase(w: Worker, now: nat)
    ensures SamePhase(w, SpawnSnark(w, now))
  {
  }

  lemma SpawnPhase(w: Worker, e: Event)
    ensures SamePhase(w, Spawn(w, e))
  {
    var w1 := SpawnSplit(w, e.splitAt);
    var w2 := SpawnProve(w1, e.segments, e.proveAt);
    var w3 := SpawnAgg(w2, e.aggAt);
    SpawnSplitPhase(w, e.splitAt);
    SpawnProvePhase(w1, e.segments, e.proveAt);
    SpawnAggPhase(w2, e.aggAt);
    SpawnSnarkPhase(w3, e.snarkAt);
  }

  lemma OnProvePhase(s: StageState, m: ProveTask, now: nat)
    ensures var s1 := OnProve(s, m, now);
      s1 == s.(proveTasks := s1.proveTasks, aggTasks := s1.aggTasks, isError := s1.isError)
  {
  }

  lemma OnAggPhase(s: StageState, m: AggTask, now: nat)
    ensures var s1 := OnAgg(s, m, now);
      s1 == s.(aggTasks := s1.aggTasks, isError := s1.isError, snarkFile := s1.snarkFile)
  {
  }

  lemma ReceivePhase(w: Worker, delivery: Option<Delivery>, now: nat)
    ensures SamePhase(w, Receive(w, delivery, now))
  {
    if delivery.Some? && delivery.value.call in w.calls {
      var r := delivery.value.reply;
      match w.calls[delivery.value.call]
      case ProveCall(t) => OnProvePhase(w.stage, ProveReply(t, r), now);
      case AggCall(t) => OnAggPhase(w.stage, AggReply(t, r), now);
      case _ =>
    }
  }

  lemma BeforeFinish(w: Worker, e: Event)
    ensures SamePhase(w, Receive(Spawn(w, e), e.delivery, e.receiveAt))
  {
    SpawnPhase(w, e);
    ReceivePhase(Spawn(w, e), e.delivery, e.receiveAt);
  }

  lemma IterateGen(w: Worker, e: Event)
    ensures Iterate(w, e).stage.gen == w.stage.gen
  {
    var w1 := Receive(Spawn(w, e), e.delivery, e.receiveAt);
    BeforeFinish(w, e);
    if w1.stage.step == Prove {
      DispatchPhase(w1.stage, e.segmentsTxt, e.listing);
    }
  }

  lemma {:induction false} RunGen(h: History, k: nat)
    requires IsRun(h) && k < |h.states|
    ensures h.states[k].stage.gen == h.gen && RequestOk(h.gen)
  {
    assert Follows(h, k);
    if k > 0 {
      RunGen(h, k - 1);
      IterateGen(h.states[k - 1], h.events[k - 1]);
    }
  }

  // The receipt handed to the snark step

  lemma {:induction false} RootOutput(s: StageState)
    requires TasksOk(s) && Built(s) && s.aggTasks != [] && s.aggTasks[|s.aggTasks| - 1].state == Success
    ensures s.proveTasks != []
    ensures s.aggTasks[|s.aggTasks| - 1].output == RootReceipt(LeafReceipts(s.proveTasks))
  {
    var n, last := |s.proveTasks|, |s.aggTasks| - 1;
    PlanKids(n);
    assert ProgressOk(s, last);
  }

  ghost predicate WholeJob(r: Receipt, job: Job) {
    Leaves(r) == JobLeaves(job) && LeavesAtDepth(r, 1 + CeilLog2(|JobLeaves(job)|))
  }

  lemma {:induction false} RootCoversJob(s: StageState, job: Job)
    requires TasksOk(s) && Built(s) && CoverOk(s, job) && AllAggregated(s)
    ensures s.aggTasks == [] <==> JobLeaves(job) == []
    ensures s.aggTasks != [] ==> WholeJob(s.aggTasks[|s.aggTasks| - 1].output, job)
  {
    PlanKids(|s.proveTasks|);
    assert |s.aggTasks| >= |s.proveTasks|;
    if s.aggTasks != [] {
      RootOutput(s);
      RootLeaves(JobLeaves(job));
    }
  }

  /** Whatever the schedule and the retries: in step Snark of a run from Init, the stage's
      snark task carries the aggregate of all segments and deferred inputs, in order, each
      once, exactly when the job has any. */
  lemma {:induction false} SnarkReceivesWholeJob(h: History, k: nat)
    requires IsRun(h) && k < |h.states|
    requires h.gen.fromStep == Init && h.states[k].stage.step == StageSpec.Snark
    ensures var r := h.states[k].stage.snarkTask.aggReceipt;
      && (Leaves(r) == JobLeaves(h.job) <==> JobLeaves(h.job) != [])
      && (JobLeaves(h.job) != [] ==> WholeJob(r, h.job))
  {
    RunInv(h, k);
    RunGen(h, k);
    SnarkTaskCoversJob(h.states[k].stage, h.job);
  }

  /** The calls made for the snark task carry that same receipt, and in a run from Agg the
      one of the request. */
  lemma {:induction false} SnarkCallsCarryReceipt(h: History, k: nat, c: CallId)
    requires IsRun(h) && k < |h.states| && c in h.states[k].calls && h.states[k].calls[c].SnarkCall?
    ensures var w := h.states[k];
      && w.stage.step == StageSpec.Snark
      && w.calls[c].snark.aggReceipt == w.stage.snarkTask.aggReceipt
      && (h.gen.fromStep == Agg ==> w.calls[c].snark.aggReceipt == h.gen.inputReceipt)
  {
    RunInv(h, k);
    RunGen(h, k);
    assert CallOk(h.states[k].stage, h.states[k].calls[c]);
  }

  /** The assertions and lookups of one iteration hold: those of get_agg_task after the
      split and prove calls were made, and those of dispatch at the end. */
  ghost predicate PanicFree(w: Worker, e: Event) {
    && LookupsSucceed(SpawnProve(SpawnSplit(w, e.splitAt), e.segments, e.proveAt).stage)
    && var w1 := Receive(Spawn(w, e), e.delivery, e.receiveAt);
       IsSuccess(w1.stage) || DispatchSafe(w1.stage)
  }

  /** No lookup or assertion of the event loop's path can fail, in any reachable state. */
  lemma {:induction false} NeverPanics(h: History, k: nat, e: Event)
    requires IsRun(h) && k < |h.states| && EventOk(h.job, h.states[k].now, e)
    ensures PanicFree(h.states[k], e)
  {
    var w := h.states[k];
    var w1 := SpawnSplit(w, e.splitAt);
    RunInv(h, k);
    SpawnSplitInv(w, e.splitAt, h.job);
    SpawnProveInv(w1, e.segments, e.proveAt, h.job);
    HandedOutComplete(SpawnProve(w1, e.segments, e.proveAt).stage, e.aggAt);
    SpawnInv(w, e, h.job);
    ReceiveCore(Spawn(w, e), e, h.job);
    FinishInv(Receive(Spawn(w, e), e.delivery, e.receiveAt), e, h.job);
  }

  // The tree in every run

  /** A dependency slot is empty exactly when the task it named has succeeded. */
  ghost predicate SlotExact(s: StageState, p: nat, j: nat)
    requires InTree(s, p) && j < |Kids(s, p)|
  {
    var t, kid := s.aggTasks[p], Kids(s, p)[j];
    && |t.childs| == |Kids(s, p)|
    && (t.childs[j].None? <==> NodeDone(s, kid))
    && (t.childs[j].Some? ==> t.childs[j].value == IdOf(s, kid))
  }

  /** Once the tree exists, every slot is exact, whether the task it named finished before
      or after the build.  (The tasks over deferred inputs have no slots.) */
  lemma {:induction false} SlotEmptyIffDone(h: History, k: nat, p: nat, j: nat)
    requires IsRun(h) && k < |h.states| && Built(h.states[k].stage) && InTree(h.states[k].stage, p)
    requires !h.states[k].stage.aggTasks[p].isDeferred && j < |Kids(h.states[k].stage, p)|
    ensures SlotExact(h.states[k].stage, p, j)
  {
    RunInv(h, k);
    assert SlotsOk(h.states[k].stage, p);
  }

  /** The entry at position p stands where its agg_index says, names earlier nodes only,
      and is final exactly when it is the last one. */
  ghost predicate WellPlaced(s: StageState, p: nat)
    requires InTree(s, p)
  {
    var t, kids := s.aggTasks[p], Kids(s, p);
    && t.aggIndex == p && t.taskId == IdOf(s, |s.proveTasks| + p)
    && (t.isFinal <==> p + 1 == |s.aggTasks|) && Flagged(s, t, p)
    && |t.inputs| == |kids| && 1 <= |kids| <= 2
    && forall j :: 0 <= j < |kids| ==>
         kids[j] < |s.proveTasks| + p && t.inputs[j].computedRequestId == IdOf(s, kids[j])
  }

  lemma {:induction false} PlacedInTree(s: StageState, p: nat)
    requires TasksOk(s) && Built(s) && InTree(s, p)
    ensures WellPlaced(s, p)
  {
    assert AggFixed(s, p);
    PlanKids(|s.proveTasks|);
  }

  /** Over n leaves the list has ceil(n) + ceil(n/2) + ... + 1 entries, all well placed. */
  ghost predicate WellShaped(s: StageState, n: nat) {
    && |s.proveTasks| == n && |s.aggTasks| == LayerSum(n) <= 2 * n + CeilLog2(n) - 1
    && forall p :: InTree(s, p) ==> WellPlaced(s, p)
  }

  lemma {:induction false} TreeShape(h: History, k: nat)
    requires IsRun(h) && k < |h.states| && Built(h.states[k].stage) && JobLeaves(h.job) != []
    ensures WellShaped(h.states[k].stage, |JobLeaves(h.job)|)
  {
    var s := h.states[k].stage;
    RunInv(h, k);
    assert |LeafReceipts(s.proveTasks)| == |s.proveTasks|;
    PlanSize(|s.proveTasks|);
    forall p | InTree(s, p)
      ensures WellPlaced(s, p)
    {
      PlacedInTree(s, p);
    }
  }

  /** The call's task is in progress, the receipts it carries are the ones that the task has
      to aggregate, and it is sent with the flags of its place in the tree. */
  ghost predicate CarriesInputs(s: StageState, t: AggTask, job: Job) {
    var p := t.taskId - Base(s);
    && Built(s) && InTree(s, p) && s.aggTasks[p].state == Processing && LeafReceipts(s.proveTasks) == JobLeaves(job)
    && Aggregate(InputReceipts(t.inputs)) == NodeReceipt(LeafReceipts(s.proveTasks), |s.proveTasks| + p)
    && Flagged(s, t, p) && (t.isFinal <==> p + 1 == |s.aggTasks|) && t.aggIndex == p
    && (t.isDeferred <==> p < |s.proveTasks| && s.proveTasks[p].isDeferred)
  }

  /** Every outstanding agg call carries the very receipts its task has to aggregate. */
  lemma {:induction false} AggCallsComplete(h: History, k: nat, c: CallId)
    requires IsRun(h) && k < |h.states| && c in h.states[k].calls && h.states[k].calls[c].AggCall?
    ensures CarriesInputs(h.states[k].stage, h.states[k].calls[c].agg, h.job)
  {
    RunInv(h, k);
    assert CallOk(h.states[k].stage, h.states[k].calls[c]);
    assert AggFixed(h.states[k].stage, h.states[k].calls[c].agg.taskId - Base(h.states[k].stage));
  }

  // Delivery

  /** A run that ends does so in success or in error. */
  ghost predicate Concluded(w: Worker) {
    w.finished ==> w.stage.isError || IsSuccess(w.stage)
  }

  lemma FinishConcluded(w: Worker, e: Event)
    requires !w.finished
    ensures Concluded(Finish(w, e))
  {
    var s1 := Dispatch(w.stage, e.segmentsTxt, e.listing);
    if !IsSuccess(w.stage) && !w.stage.isError {
      assert Finish(w, e) == w.(stage := s1);
    }
  }

  lemma {:induction false} RunConcluded(h: History, k: nat)
    requires IsRun(h) && k < |h.states|
    ensures Concluded(h.states[k])
  {
    assert Follows(h, k);
    if k > 0 {
      RunConcluded(h, k - 1);
      if !h.states[k - 1].finished {
        StepConcluded(h, k);
      }
    }
  }

  lemma {:induction false} StepConcluded(h: History, k: nat)
    requires IsRun(h) && 0 < k < |h.states| && !h.states[k - 1].finished
    ensures Concluded(h.states[k])
  {
    var w, e := h.states[k - 1], h.events[k - 1];
    assert Follows(h, k);
    BeforeFinish(w, e);
    FinishConcluded(Receive(Spawn(w, e), e.delivery, e.receiveAt), e);
  }

  lemma {:induction false} DeliveredAgg(s: StageState, job: Job)
    requires TasksOk(s) && Rest(s, job) && JobLeaves(job) != []
    requires s.gen.fromStep == Init && s.gen.targetStep == Agg && !s.gen.compositeProof && IsSuccess(s)
    ensures s.snarkFile.Some? && WholeJob(s.snarkFile.value, job)
  {
    assert s.step == End;
    RootCoversJob(s, job);
  }

  lemma {:induction false} SnarkTaskCoversJob(s: StageState, job: Job)
    requires TasksOk(s) && Rest(s, job) && s.step == StageSpec.Snark && s.gen.fromStep == Init
    ensures Leaves(s.snarkTask.aggReceipt) == JobLeaves(job) <==> JobLeaves(job) != []
    ensures JobLeaves(job) != [] ==> WholeJob(s.snarkTask.aggReceipt, job)
  {
    LastIsFinal(s);
    RootCoversJob(s, job);
    if JobLeaves(job) == [] {
      assert Leaves(EMPTY) == [EMPTY];
    }
  }

  lemma {:induction false} DeliveredSnark(s: StageState, job: Job)
    requires TasksOk(s) && Rest(s, job) && JobLeaves(job) != []
    requires s.gen.fromStep == Init && s.gen.targetStep == StageSpec.Snark && !s.gen.compositeProof && IsSuccess(s)
    ensures s.snarkFile.Some? && s.snarkFile.value.SnarkProof? && WholeJob(s.snarkFile.value.of, job)
  {
    assert s.step == StageSpec.Snark;
    SnarkTaskCoversJob(s, job);
  }

  /** A run from Init that ends without error leaves in snark_path the aggregate of the
      whole job (target Agg), or the snark proof of that aggregate (target Snark), despite
      the unsuccessful answers that also wrote to it. */
  lemma {:induction false} Delivered(h: History, k: nat)
    requires IsRun(h) && k < |h.states| && h.states[k].finished && !h.states[k].stage.isError
    requires h.gen.fromStep == Init && !h.gen.compositeProof && JobLeaves(h.job) != []
    ensures var file := h.states[k].stage.snarkFile;
      && (h.gen.targetStep == Agg ==> file.Some? && WholeJob(file.value, h.job))
      && (h.gen.targetStep == StageSpec.Snark ==>
           file.Some? && file.value.SnarkProof? && WholeJob(file.value.of, h.job))
  {
    RunInv(h, k);
    RunGen(h, k);
    RunConcluded(h, k);
    if h.gen.targetStep == Agg {
      DeliveredAgg(h.states[k].stage, h.job);
    } else if h.gen.targetStep == StageSpec.Snark {
      DeliveredSnark(h.states[k].stage, h.job);
    }
  }

  // Steps

  /** Only step Prove is ever left. */
  lemma {:induction false} IterateStep(w: Worker, e: Event)
    requires w.stage.step == Prove || w.stage.step == StageSpec.Snark || w.stage.step == End
    ensures Iterate(w, e).stage.step == w.stage.step || w.stage.step == Prove
    ensures w.stage.tasksGenDone ==> Iterate(w, e).stage.tasksGenDone
  {
    var w1 := Receive(Spawn(w, e), e.delivery, e.receiveAt);
    BeforeFinish(w, e);
    if w1.stage.step == Prove {
      DispatchPhase(w1.stage, e.segmentsTxt, e.listing);
    }
  }

  predicate Visited(gen: GenerateTask, step: Step) {
    && (step == Prove || step == StageSpec.Snark || step == End)
    && (gen.fromStep == Agg ==> step == StageSpec.Snark)
    && (step == StageSpec.Snark && gen.fromStep == Init ==> gen.targetStep == StageSpec.Snark && !gen.compositeProof)
  }

  lemma {:induction false} VisitedAt(h: History, k: nat)
    requires IsRun(h) && k < |h.states|
    ensures Visited(h.gen, h.states[k].stage.step)
  {
    RunInv(h, k);
    RunGen(h, k);
  }

  /** Runs from Init visit Prove and then at most one of Snark and End, for good; runs from
      Agg stay in Snark.  In particular dispatch's arm from Snark to End is never taken. */
  lemma {:induction false} StepsVisited(h: History, k: nat, m: nat)
    requires IsRun(h) && k <= m < |h.states|
    ensures Visited(h.gen, h.states[k].stage.step)
    ensures h.states[k].stage.step == Prove || h.states[m].stage.step == h.states[k].stage.step
    decreases m
  {
    VisitedAt(h, k);
    if k < m {
      StepsVisited(h, k, m - 1);
      assert Follows(h, m);
      VisitedAt(h, m - 1);
      IterateStep(h.states[m - 1], h.events[m - 1]);
    }
  }

  // Finished work stays finished

  ghost predicate SameProves(ts: seq<ProveTask>, ts1: seq<ProveTask>) {
    |ts1| == |ts| && forall i :: 0 <= i < |ts| ==> ts1[i].taskId == ts[i].taskId
  }

  ghost predicate SameAggs(ts: seq<AggTask>, ts1: seq<AggTask>) {
    |ts1| == |ts| && forall p :: 0 <= p < |ts| ==> ts1[p].taskId == ts[p].taskId
  }

  /** What has been generated is not generated again. */
  ghost predicate StillThere(s: StageState, s1: StageState) {
    && (s.splitTask.state != Initial ==> s1.splitTask.state != Initial && s1.splitTask.taskId == s.splitTask.taskId)
    && (s.snarkTask.state != Initial ==> s1.snarkTask.state != Initial && s1.snarkTask.taskId == s.snarkTask.taskId)
    && (s.tasksGenDone ==>
         s1.tasksGenDone && SameProves(s.proveTasks, s1.proveTasks) && SameAggs(s.aggTasks, s1.aggTasks))
  }


  /** What is done in s is found unchanged in s1, apart from dependency slots.  (Before the
      build, the list may still lose tasks beyond the job's segments.) */
  ghost predicate SuccessKept(s: StageState, s1: StageState, job: Job) {
    && StillThere(s, s1)
    && (s.splitTask.state == Success ==> s1.splitTask == s.splitTask)
    && (s.snarkTask.state == Success ==> s1.snarkTask == s.snarkTask)
    && (forall i :: 0 <= i < |s.proveTasks| && s.proveTasks[i].state == Success && (i < job.segments || s.tasksGenDone) ==>
         i < |s1.proveTasks| && s1.proveTasks[i] == s.proveTasks[i])
    && (forall p :: 0 <= p < |s.aggTasks| && s.aggTasks[p].state == Success ==>
         p < |s1.aggTasks| && s1.aggTasks[p] == s.aggTasks[p].(childs := s1.aggTasks[p].childs))
  }

  lemma KeptReflexive(s: StageState, job: Job)
    ensures SuccessKept(s, s, job)
  {
  }

  lemma GetProveSuccess(s: StageState, segments: set<nat>, now: nat, job: Job)
    ensures SuccessKept(s, GetProve(s, segments, now).0, job)
  {
  }

  lemma GetAggSuccess(s: StageState, now: nat, job: Job)
    ensures SuccessKept(s, GetAgg(s, now).0, job)
  {
    var p, s1 := FirstWhere(s.aggTasks, ReadyAgg()), GetAgg(s, now).0;
    if p < |s.aggTasks| {
      assert s1 == s.(aggTasks := s.aggTasks[p := s1.aggTasks[p]]);
    }
  }

  /** Tasks that are not done may change freely. */
  lemma SingleTasksKept(s: StageState, s1: StageState, job: Job)
    requires s1 == s.(splitTask := s1.splitTask, snarkTask := s1.snarkTask, isError := s1.isError, snarkFile := s1.snarkFile)
    requires s.splitTask.state == Success ==> s1.splitTask == s.splitTask
    requires s.snarkTask.state == Success ==> s1.snarkTask == s.snarkTask
    requires StillThere(s, s1)
    ensures SuccessKept(s, s1, job)
  {
  }

  lemma KeptTransitive(s: StageState, s1: StageState, s2: StageState, job: Job)
    requires SuccessKept(s, s1, job) && SuccessKept(s1, s2, job)
    ensures SuccessKept(s, s2, job)
  {
  }

  lemma SpawnSplitSuccess(w: Worker, now: nat, job: Job)
    ensures SuccessKept(w.stage, SpawnSplit(w, now).stage, job)
  {
    SingleTasksKept(w.stage, SpawnSplit(w, now).stage, job);
  }

  lemma SpawnProveSuccess(w: Worker, segments: set<nat>, now: nat, job: Job)
    ensures SuccessKept(w.stage, SpawnProve(w, segments, now).stage, job)
  {
    GetProveSuccess(w.stage, segments, now, job);
    KeptReflexive(w.stage, job);
  }

  lemma SpawnAggSuccess(w: Worker, now: nat, job: Job)
    ensures SuccessKept(w.stage, SpawnAgg(w, now).stage, job)
  {
    GetAggSuccess(w.stage, now, job);
    KeptReflexive(w.stage, job);
  }

  lemma SpawnSnarkSuccess(w: Worker, now: nat, job: Job)
    ensures SuccessKept(w.stage, SpawnSnark(w, now).stage, job)
  {
    SingleTasksKept(w.stage, SpawnSnark(w, now).stage, job);
  }

  lemma SpawnKeeps(w: Worker, e: Event, job: Job)
    ensures SuccessKept(w.stage, Spawn(w, e).stage, job)
  {
    var w1 := SpawnSplit(w, e.splitAt);
    var w2 := SpawnProve(w1, e.segments, e.proveAt);
    var w3 := SpawnAgg(w2, e.aggAt);
    SpawnSplitSuccess(w, e.splitAt, job);
    SpawnProveSuccess(w1, e.segments, e.proveAt, job);
    SpawnAggSuccess(w2, e.aggAt, job);
    SpawnSnarkSuccess(w3, e.snarkAt, job);
    KeptTransitive(w.stage, w1.stage, w2.stage, job);
    KeptTransitive(w.stage, w2.stage, w3.stage, job);
    KeptTransitive(w.stage, w3.stage, Spawn(w, e).stage, job);
  }

  lemma {:induction false} AcceptAggSuccess(s: StageState, m: AggTask, now: nat, job: Job)
    ensures SuccessKept(s, AcceptAgg(s, m, now), job)
  {
  }

  lemma {:induction false} ClearAggSuccess(s: StageState, id: TaskId, snarkFile: Option<Receipt>, job: Job)
    ensures SuccessKept(s, s.(aggTasks := ClearAgg(s.aggTasks, id), snarkFile := snarkFile), job)
  {
    ClearAggKeeps(s.aggTasks, id);
  }

  lemma {:induction false} AcceptProveSuccess(s: StageState, m: ProveTask, now: nat, job: Job)
    ensures SuccessKept(s, AcceptProve(s, m, now), job)
  {
  }

  lemma {:induction false} OnProveSuccess(s: StageState, m: ProveTask, now: nat, job: Job)
    ensures SuccessKept(s, OnProve(s, m, now), job)
  {
    var s1 := AcceptProve(s, m, now);
    AcceptProveSuccess(s, m, now, job);
    ClearAggSuccess(s1, m.taskId, s1.snarkFile, job);
    KeptTransitive(s, s1, s1.(aggTasks := ClearAgg(s1.aggTasks, m.taskId)), job);
  }

  lemma {:induction false} OnAggSuccess(s: StageState, m: AggTask, now: nat, job: Job)
    ensures SuccessKept(s, OnAgg(s, m, now), job)
  {
    var s1, s2 := AcceptAgg(s, m, now), OnAgg(s, m, now);
    AcceptAggSuccess(s, m, now, job);
    if m.state == Success {
      ClearAggSuccess(s1, m.taskId, s2.snarkFile, job);
      KeptTransitive(s, s1, s2, job);
    }
  }

  lemma {:induction false} ReceiveKeeps(w: Worker, delivery: Option<Delivery>, now: nat, job: Job)
    requires CallsOk(w.stage, w.calls, w.nextCall)
    ensures SuccessKept(w.stage, Receive(w, delivery, now).stage, job)
  {
    if delivery.Some? && delivery.value.call in w.calls {
      var c, r := delivery.value.call, delivery.value.reply;
      assert CallOk(w.stage, w.calls[c]);
      match w.calls[c]
      case SplitCall(t) => SingleTasksKept(w.stage, OnSplit(w.stage, SplitReply(t, r), now), job);
      case ProveCall(t) => OnProveSuccess(w.stage, ProveReply(t, r), now, job);
      case AggCall(t) => OnAggSuccess(w.stage, AggReply(t, r), now, job);
      case SnarkCall(t) => SingleTasksKept(w.stage, OnSnark(w.stage, SnarkReply(t, r), now), job);
    } else {
      KeptReflexive(w.stage, job);
    }
  }

  lemma {:induction false} GenProveSuccess(s: StageState, segmentsTxt: Option<nat>, job: Job)
    ensures SuccessKept(s, GenProve(s, segmentsTxt), job)
  {
  }

  lemma {:induction false} GenTasksSuccess(s: StageState, listing: seq<DirEntry>, job: Job)
    requires TasksOk(s) && !s.tasksGenDone && s.splitTask.totalSegments == job.segments
    ensures SuccessKept(s, GenTasks(s, listing), job)
  {
    FitKeeps(s);
    GenTasksPhase(s, listing);
    var fit, s1 := Fit(s), GenTasks(s, listing);
    GenTasksList(s, listing);
    forall i | 0 <= i < |s.proveTasks| && i < job.segments
      ensures i < |s1.proveTasks| && s1.proveTasks[i] == fit.proveTasks[i] == s.proveTasks[i]
    {
    }
  }

  lemma AdvanceSuccess(s: StageState, job: Job)
    requires s.step == Prove && s.snarkTask.state == Initial
    ensures SuccessKept(s, Advance(s), job)
  {
  }

  lemma {:induction false} DispatchSuccess(s: StageState, segmentsTxt: Option<nat>, listing: seq<DirEntry>, job: Job)
    requires TasksOk(s) && Rest(s, job) && s.step == Prove
    ensures SuccessKept(s, DispatchProve(s, segmentsTxt, listing), job)
  {
    var s1, s3 := GenProve(s, segmentsTxt), DispatchProve(s, segmentsTxt, listing);
    GenProveSuccess(s, segmentsTxt, job);
    GenProveKeeps(s, segmentsTxt);
    GenProvePhase(s, segmentsTxt);
    if s1.splitTask.state != Success || s1.tasksGenDone {
      AdvanceSuccess(s1, job);
      KeptTransitive(s, s1, s3, job);
    } else if s1.gen.targetStep != Split {
      var s2 := GenTasks(s1, listing);
      GenTasksSuccess(s1, listing, job);
      GenTasksPhase(s1, listing);
      AdvanceSuccess(s2, job);
      KeptTransitive(s, s1, s2, job);
      KeptTransitive(s, s2, s3, job);
    }
  }

  lemma {:induction false} BeforeFinishSuccess(w: Worker, e: Event, job: Job)
    requires Inv(w, job)
    ensures SuccessKept(w.stage, Receive(Spawn(w, e), e.delivery, e.receiveAt).stage, job)
  {
    var w1 := Spawn(w, e);
    SpawnInv(w, e, job);
    SpawnKeeps(w, e, job);
    ReceiveKeeps(w1, e.delivery, e.receiveAt, job);
    KeptTransitive(w.stage, w1.stage, Receive(w1, e.delivery, e.receiveAt).stage, job);
  }

  lemma {:induction false} FinishSuccess(w: Worker, e: Event, job: Job)
    requires TasksOk(w.stage) && Rest(w.stage, job)
    ensures SuccessKept(w.stage, Finish(w, e).stage, job)
  {
    KeptReflexive(w.stage, job);
    if w.stage.step == Prove {
      DispatchSuccess(w.stage, e.segmentsTxt, e.listing, job);
    }
  }

  lemma {:induction false} StepSuccess(h: History, m: nat)
    requires IsRun(h) && 0 < m < |h.states|
    ensures SuccessKept(h.states[m - 1].stage, h.states[m].stage, h.job)
  {
    var w, e := h.states[m - 1], h.events[m - 1];
    RunInv(h, m - 1);
    assert Follows(h, m);
    if w.finished {
      KeptReflexive(w.stage, h.job);
    } else {
      var w1 := Receive(Spawn(w, e), e.delivery, e.receiveAt);
      SpawnInv(w, e, h.job);
      ReceiveCore(Spawn(w, e), e, h.job);
      BeforeFinishSuccess(w, e, h.job);
      FinishSuccess(w1, e, h.job);
      KeptTransitive(w.stage, w1.stage, Finish(w1, e).stage, h.job);
    }
  }

  /** Along every run, what is done stays done, with its output, and no generator runs
      twice: the split task, the snark task and the lists of a built tree keep their
      identifiers. */
  lemma {:induction false} SuccessIsPermanent(h: History, k: nat, m: nat)
    requires IsRun(h) && k <= m < |h.states|
    ensures SuccessKept(h.states[k].stage, h.states[m].stage, h.job)
    decreases m
  {
    if k == m {
      KeptReflexive(h.states[k].stage, h.job);
    } else {
      SuccessIsPermanent(h, k, m - 1);
      StepSuccess(h, m);
      KeptTransitive(h.states[k].stage, h.states[m - 1].stage, h.states[m].stage, h.job);
    }
  }
}
