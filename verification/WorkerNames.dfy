/** Names: in every run no two tasks of a stage ever have the same identifier. */
module WorkerNames {
  import opened AggPlan
  import opened DeferredFiles
  import opened Tasks
  import opened StageSpec
  import opened StageInvariant
  import opened StageBuild
  import opened StageSteps
  import opened WorkerSpec
  import opened WorkerCalls
  import opened WorkerInvariant
  import opened WorkerSafety
  import opened WorkerRetries
  import opened WorkerHandOuts

  /** The split task is older than every listed task, and the snark task younger. */
  ghost predicate NamesOk(s: StageState) {
    && IdsOk(s) && s.splitTask.taskId < s.nextId && s.splitTask.taskId < Base(s)
    && (forall i :: 0 <= i < |s.proveTasks| ==> s.splitTask.taskId < s.proveTasks[i].taskId)
    && (s.snarkTask.state != Initial ==> SnarkYounger(s))
  }

  ghost predicate SnarkYounger(s: StageState) {
    && s.splitTask.taskId < s.snarkTask.taskId < s.nextId
    && (forall i :: 0 <= i < |s.proveTasks| ==> s.proveTasks[i].taskId < s.snarkTask.taskId)
    && (forall p :: 0 <= p < |s.aggTasks| ==> s.aggTasks[p].taskId < s.snarkTask.taskId)
  }

  lemma {:induction false} StartNames(gen: GenerateTask)
    requires RequestOk(gen)
    ensures NamesOk(Start(gen).stage)
  {
  }

  /** The snark task is named after everything that is listed when it is generated. */
  lemma {:induction false} SnarkNamed(s: StageState, segmentsTxt: Option<nat>, listing: seq<DirEntry>)
    requires s.step == Prove && s.snarkTask.state == Initial
    requires Dispatch(s, segmentsTxt, listing).snarkTask.state != Initial
    requires IdsOk(Prepared(s, segmentsTxt, listing))
    ensures var s1, s2 := Prepared(s, segmentsTxt, listing), Dispatch(s, segmentsTxt, listing);
      && s2.snarkTask.taskId == s1.nextId < s2.nextId
      && (forall i :: 0 <= i < |s2.proveTasks| ==> s2.proveTasks[i].taskId < s2.snarkTask.taskId)
      && (forall p :: 0 <= p < |s2.aggTasks| ==> s2.aggTasks[p].taskId < s2.snarkTask.taskId)
  {
    DispatchPhase(s, segmentsTxt, listing);
  }

  lemma {:induction false} PreparedIds(s: StageState, e: Event, job: Job)
    requires TasksOk(s) && Rest(s, job) && s.step == Prove && ListingFits(job, e.listing)
    ensures IdsOk(Prepared(s, e.segmentsTxt, e.listing))
  {
    GenProveKeeps(s, e.segmentsTxt);
    GenProvePhase(s, e.segmentsTxt);
    ProducedListingOk(e.listing, job);
    var s1 := GenProve(s, e.segmentsTxt);
    if s1.splitTask.state == Success && !s1.tasksGenDone {
      GenTasksKeeps(s1, e.listing);
    }
  }

  /** What an iteration keeps of the names, once a snark task that is new is known to be named
      last. */
  lemma {:induction false} NamesStep(s: StageState, s1: StageState, failed: Option<TaskId>, job: Job)
    requires NamesOk(s) && TasksOk(s1) && CountsMove(s, s1, failed) && SuccessKept(s, s1, job)
    requires s1.splitTask.taskId == s.splitTask.taskId
    requires s1.snarkTask.state != Initial ==>
      if s.snarkTask.state == Initial then SnarkYounger(s1)
      else s.tasksGenDone || (s1.proveTasks == [] && s1.aggTasks == [])
    ensures NamesOk(s1)
  {
    forall i | 0 <= i < |s1.proveTasks|
      ensures s1.splitTask.taskId < s1.proveTasks[i].taskId
    {
      assert CountMoves(s, s1, failed, i);
    }
    if s1.aggTasks != [] {
      assert |Plan(0)| == 0;
      assert s1.proveTasks != [] && s1.proveTasks[0].taskId < Base(s1);
    }
  }

  lemma {:induction false} SpawnNoSnark(w: Worker, e: Event)
    requires w.stage.step != StageSpec.Snark
    ensures Spawn(w, e).stage.snarkTask == w.stage.snarkTask
  {
    SpawnPhase(w, e);
    StagesBetween(w, e);
    SpawnSteps(w, e);
  }

  lemma {:induction false} ReceiveNoSnark(w: Worker, delivery: Option<Delivery>, now: nat)
    requires CallsOk(w.stage, w.calls, w.nextCall) && w.stage.snarkTask.state == Initial
    ensures Receive(w, delivery, now).stage.snarkTask == w.stage.snarkTask
  {
    if delivery.Some? && delivery.value.call in w.calls {
      assert CallOk(w.stage, w.calls[delivery.value.call]);
    }
  }

  /** Nothing is generated before dispatch. */
  lemma {:induction false} BeforeSnark(w: Worker, e: Event, job: Job)
    requires Inv(w, job) && w.stage.snarkTask.state == Initial
    ensures Receive(Spawn(w, e), e.delivery, e.receiveAt).stage.snarkTask.state == Initial
    ensures w.stage.step != StageSpec.Snark
  {
    SpawnInv(w, e, job);
    SpawnNoSnark(w, e);
    ReceiveNoSnark(Spawn(w, e), e.delivery, e.receiveAt);
  }

  /** The iteration that generates the snark task is in step Prove when it dispatches. */
  lemma {:induction false} SnarkFromProve(h: History, k: nat)
    requires IsRun(h) && k < |h.events|
    requires h.states[k].stage.snarkTask.state == Initial && h.states[k + 1].stage.snarkTask.state != Initial
    ensures var w, e := h.states[k], h.events[k];
      var w2 := Receive(Spawn(w, e), e.delivery, e.receiveAt);
      && !w.finished && w2.stage.step == Prove && w2.stage.snarkTask.state == Initial
      && h.states[k + 1].stage == Dispatch(w2.stage, e.segmentsTxt, e.listing)
  {
    var w, e := h.states[k], h.events[k];
    assert Follows(h, k + 1);
    RunInv(h, k);
    StepsVisited(h, k, k);
    BeforeSnark(w, e, h.job);
    BeforeFinish(w, e);
    FinishNoSnarkUnlessProve(Receive(Spawn(w, e), e.delivery, e.receiveAt), e);
  }

  lemma FinishNoSnarkUnlessProve(w: Worker, e: Event)
    requires w.stage.step == Prove || w.stage.step == StageSpec.Snark || w.stage.step == End
    ensures Finish(w, e).stage.snarkTask == w.stage.snarkTask
      || (w.stage.step == Prove && Finish(w, e).stage == Dispatch(w.stage, e.segmentsTxt, e.listing))
  {
  }

  lemma {:induction false} SplitOlder(h: History, k: nat)
    requires IsRun(h) && k < |h.events|
    ensures h.states[k + 1].stage.splitTask.taskId == h.states[k].stage.splitTask.taskId
    ensures h.states[k + 1].stage.nextId >= h.states[k].stage.nextId
  {
    RunInv(h, k);
    RunInv(h, k + 1);
    RunGen(h, k);
    RunGen(h, k + 1);
    StepSuccess(h, k + 1);
    IterateCounts(h, k);
  }

  lemma {:induction false} NewSnark(h: History, k: nat)
    requires IsRun(h) && k < |h.events| && NamesOk(h.states[k].stage)
    requires h.states[k].stage.snarkTask.state == Initial && h.states[k + 1].stage.snarkTask.state != Initial
    ensures SnarkYounger(h.states[k + 1].stage)
  {
    var w, e := h.states[k], h.events[k];
    var w2 := Receive(Spawn(w, e), e.delivery, e.receiveAt);
    assert Follows(h, k + 1);
    RunInv(h, k);
    SnarkFromProve(h, k);
    SpawnInv(w, e, h.job);
    ReceiveCore(Spawn(w, e), e, h.job);
    PreparedIds(w2.stage, e, h.job);
    SnarkNamed(w2.stage, e.segmentsTxt, e.listing);
    NextIdBefore(h, k);
    SplitOlder(h, k);
  }

  lemma {:induction false} NextIdBefore(h: History, k: nat)
    requires IsRun(h) && k < |h.events|
    ensures var w, e := h.states[k], h.events[k];
      var s2 := Receive(Spawn(w, e), e.delivery, e.receiveAt).stage;
      s2.nextId >= w.stage.nextId && Prepared(s2, e.segmentsTxt, e.listing).nextId >= s2.nextId
  {
    var w, e := h.states[k], h.events[k];
    var w1 := Spawn(w, e);
    RunInv(h, k);
    assert Follows(h, k + 1);
    ListedCounts(w.stage);
    SpawnCounts(w, e);
    SpawnInv(w, e, h.job);
    ListedCounts(w1.stage);
    ReceiveCounts(w1, e.delivery, e.receiveAt);
    ReceiveCore(w1, e, h.job);
    ListedCounts(Receive(w1, e.delivery, e.receiveAt).stage);
    PreparedCounts(Receive(w1, e.delivery, e.receiveAt).stage, e.segmentsTxt, e.listing);
  }

  lemma {:induction false} SnarkListsStay(h: History, k: nat)
    requires IsRun(h) && k < |h.events| && h.states[k].stage.snarkTask.state != Initial
    ensures var s, s1 := h.states[k].stage, h.states[k + 1].stage;
      s.tasksGenDone || (s1.proveTasks == [] && s1.aggTasks == [])
  {
    RunInv(h, k);
    RunInv(h, k + 1);
    RunGen(h, k);
    RunGen(h, k + 1);
  }

  lemma {:induction false} StepNames(h: History, k: nat)
    requires IsRun(h) && k < |h.events| && NamesOk(h.states[k].stage)
    ensures NamesOk(h.states[k + 1].stage)
  {
    var s, s1 := h.states[k].stage, h.states[k + 1].stage;
    RunInv(h, k + 1);
    IterateCounts(h, k);
    StepSuccess(h, k + 1);
    SplitOlder(h, k);
    if s.snarkTask.state != Initial {
      SnarkListsStay(h, k);
    } else if s1.snarkTask.state != Initial {
      NewSnark(h, k);
    }
    NamesStep(s, s1, FailedId(h.states[k], h.events[k]), h.job);
  }

  lemma {:induction false} RunNames(h: History, k: nat)
    requires IsRun(h) && k <= |h.events|
    ensures NamesOk(h.states[k].stage)
  {
    if k == 0 {
      assert Follows(h, 0);
      StartNames(h.gen);
    } else {
      RunNames(h, k - 1);
      StepNames(h, k - 1);
    }
  }

  /** All identifiers of a stage: the split task's, the listed ones, the snark task's. */
  function AllIds(s: StageState): seq<TaskId> {
    [s.splitTask.taskId]
    + seq(|s.proveTasks|, i requires 0 <= i < |s.proveTasks| => s.proveTasks[i].taskId)
    + seq(|s.aggTasks|, p requires 0 <= p < |s.aggTasks| => s.aggTasks[p].taskId)
    + if s.snarkTask.state == Initial then [] else [s.snarkTask.taskId]
  }

  /** In every run, all identifiers in use are different. */
  lemma {:induction false} NamesDiffer(h: History, k: nat, i: nat, j: nat)
    requires IsRun(h) && k <= |h.events| && i < j < |AllIds(h.states[k].stage)|
    ensures AllIds(h.states[k].stage)[i] != AllIds(h.states[k].stage)[j]
  {
    RunNames(h, k);
  }
}
