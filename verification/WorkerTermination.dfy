/** How long aggregation takes: once the tree is built there is always a call to answer, and
    after a number of decisive answers fixed by the job the stage has left step Prove. */
module WorkerTermination {
  import opened Tasks
  import opened StageSpec
  import opened StageInvariant
  import opened StageProgress
  import opened WorkerSpec
  import opened WorkerInvariant
  import opened WorkerSafety
  import opened WorkerLiveness
  import opened WorkerProgress
  import opened WorkerBounds

  predicate ProveInProgress(s: StageState) {
    exists i :: 0 <= i < |s.proveTasks| && s.proveTasks[i].state == Processing
  }

  predicate AggInProgress(s: StageState) {
    exists p :: 0 <= p < |s.aggTasks| && s.aggTasks[p].state == Processing
  }

  lemma {:induction false} SpawnProveRuns(w: Worker, segments: set<nat>, now: nat)
    requires ProvesOk(w.stage) && w.stage.step == Prove && w.stage.tasksGenDone && !AllProved(w.stage)
    requires SegmentsPresent(w.stage, segments) && w.stage.gen.maxProverNum >= 1
    ensures ProveInProgress(SpawnProve(w, segments, now).stage)
  {
    var s := w.stage;
    var j := FirstWhere(s.proveTasks, ReadyProve(segments));
    if i :| 0 <= i < |s.proveTasks| && s.proveTasks[i].state == Processing {
      assert SpawnProve(w, segments, now).stage.proveTasks[i].state == Processing;
    } else {
      CountWhereNone(s.proveTasks, ProveIn(Processing));
      var i :| 0 <= i < |s.proveTasks| && s.proveTasks[i].state != Success;
      assert ProveOk(s.proveTasks[i], i) && ReadyProve(segments)(s.proveTasks[i]);
      assert SpawnProve(w, segments, now).stage.proveTasks[j].state == Processing;
    }
  }

  lemma {:induction false} SpawnAggRuns(w: Worker, now: nat)
    requires TasksOk(w.stage) && w.stage.step == Prove && w.stage.gen.maxProverNum >= 1
    requires Built(w.stage) && AllProved(w.stage) && !AllAggregated(w.stage)
    ensures AggInProgress(SpawnAgg(w, now).stage)
  {
    var s := w.stage;
    var q := FirstWhere(s.aggTasks, ReadyAgg());
    NoAggDeadlock(s);
    CountWhereNone(s.proveTasks, ProveNotIn(Success));
    if p :| 0 <= p < |s.aggTasks| && s.aggTasks[p].state == Processing {
      assert SpawnAgg(w, now).stage.aggTasks[p].state == Processing;
    } else {
      assert SpawnAgg(w, now).stage.aggTasks[q].state == Processing;
    }
  }

  lemma SpawnSplitLists(w: Worker, now: nat)
    ensures SpawnSplit(w, now).stage == w.stage.(splitTask := SpawnSplit(w, now).stage.splitTask)
  {
  }

  lemma SpawnSnarkLists(w: Worker, now: nat)
    ensures SpawnSnark(w, now).stage == w.stage.(snarkTask := SpawnSnark(w, now).stage.snarkTask)
  {
  }

  lemma SpawnAggProves(w: Worker, now: nat)
    ensures SpawnAgg(w, now).stage == w.stage.(aggTasks := SpawnAgg(w, now).stage.aggTasks)
  {
  }

  lemma SpawnProveIdle(w: Worker, segments: set<nat>, now: nat)
    requires AllProved(w.stage)
    ensures SpawnProve(w, segments, now).stage == w.stage
  {
  }

  lemma {:induction false} SpawnLeavesCall(w: Worker, e: Event, job: Job)
    requires Inv(w, job) && w.stage.step == Prove && w.stage.tasksGenDone && !AllDone(w.stage)
    requires SegmentsPresent(w.stage, e.segments) && w.stage.gen.maxProverNum >= 1
    ensures ProveInProgress(Spawn(w, e).stage) || AggInProgress(Spawn(w, e).stage)
  {
    var w1 := SpawnSplit(w, e.splitAt);
    var w2 := SpawnProve(w1, e.segments, e.proveAt);
    var w3 := SpawnAgg(w2, e.aggAt);
    SpawnSplitLists(w, e.splitAt);
    SpawnSplitInv(w, e.splitAt, job);
    SpawnAggProves(w2, e.aggAt);
    SpawnSnarkLists(w3, e.snarkAt);
    if AllProved(w.stage) {
      SpawnProveIdle(w1, e.segments, e.proveAt);
      SpawnProveInv(w1, e.segments, e.proveAt, job);
      SpawnAggRuns(w2, e.aggAt);
    } else {
      SpawnProveRuns(w1, e.segments, e.proveAt);
    }
  }

  /** Some outstanding call is about a listed task in progress. */
  ghost predicate Answerable(w: Worker) {
    exists c :: c in w.calls && AboutListed(w.stage, w.calls[c])
  }

  lemma {:induction false} RunningAnswerable(w: Worker)
    requires AllMatched(w) && (ProveInProgress(w.stage) || AggInProgress(w.stage))
    ensures Answerable(w)
  {
    var s := w.stage;
    if i :| 0 <= i < |s.proveTasks| && s.proveTasks[i].state == Processing {
      assert ProveCalled(w.calls, s.proveTasks[i].taskId);
      var c :| c in w.calls && w.calls[c].ProveCall? && w.calls[c].prove.taskId == s.proveTasks[i].taskId;
      assert RunningProve(w.calls[c].prove.taskId)(s.proveTasks[i]);
    } else {
      var p :| 0 <= p < |s.aggTasks| && s.aggTasks[p].state == Processing;
      assert AggCalled(w.calls, s.aggTasks[p].taskId);
      var c :| c in w.calls && w.calls[c].AggCall? && w.calls[c].agg.taskId == s.aggTasks[p].taskId;
      assert RunningAgg(w.calls[c].agg.taskId)(s.aggTasks[p]);
    }
  }

  /** An iteration with an outstanding call about a listed task receives a decisive answer
      to such a call, and the segment files are there. */
  ghost predicate Prompt(w: Worker, e: Event) {
    SegmentsPresent(w.stage, e.segments) && (Answerable(Spawn(w, e)) ==> AnswersIn(w, e) == 1)
  }

  ghost predicate PromptAt(h: History, k: nat) {
    k < |h.events| < |h.states| && Prompt(h.states[k], h.events[k])
  }

  lemma {:induction false} PromptAnswers(h: History, k: nat)
    requires IsRun(h) && RunLossless(h) && PromptAt(h, k) && h.gen.maxProverNum >= 1
    requires h.states[k].stage.tasksGenDone && h.states[k].stage.step == Prove && !h.states[k].finished
    ensures AnswersIn(h.states[k], h.events[k]) == 1
  {
    var w, e := h.states[k], h.events[k];
    RunInv(h, k);
    RunGen(h, k);
    RunSettled(h, k);
    NothingLostOrDoubled(h, k);
    SpawnLeavesCall(w, e, h.job);
    SpawnMatched(w, e, h.job);
    RunningAnswerable(Spawn(w, e));
  }

  /** The stage is still in step Prove, with the tree built. */
  predicate StillProving(w: Worker) {
    !w.finished && w.stage.step == Prove && w.stage.tasksGenDone
  }

  /** A stage that has left step Prove, or has ended, does not return to it. */
  lemma {:induction false} StillProvingBefore(h: History, k: nat)
    requires IsRun(h) && 0 < k < |h.states| && StillProving(h.states[k]) && h.states[k - 1].stage.tasksGenDone
    ensures StillProving(h.states[k - 1])
  {
    assert Follows(h, k);
    StepsVisited(h, k - 1, k);
  }

  /** As long as the stage is in step Prove, every prompt iteration counts. */
  lemma {:induction false} AnswersAddUp(h: History, k: nat, m: nat)
    requires IsRun(h) && RunLossless(h) && h.gen.maxProverNum >= 1 && k <= m <= |h.events|
    requires h.states[k].stage.tasksGenDone && StillProving(h.states[m])
    requires forall j :: k <= j < m ==> PromptAt(h, j)
    ensures Answers(h.events, h.states, m) == Answers(h.events, h.states, k) + m - k
    decreases m
  {
    if k < m {
      SuccessIsPermanent(h, k, m - 1);
      StillProvingBefore(h, m);
      AnswersAddUp(h, k, m - 1);
      assert PromptAt(h, m - 1);
      PromptAnswers(h, m - 1);
    }
  }

  /** Once the tree is built, more than AnswerLimit(job) prompt iterations take the stage out
      of step Prove, or to its end. */
  lemma {:induction false} ProvingEnds(h: History, k: nat, m: nat)
    requires IsRun(h) && RunLossless(h) && h.gen.maxProverNum >= 1
    requires k <= m <= |h.events| && h.states[k].stage.tasksGenDone && m - k > AnswerLimit(h.job)
    requires forall j :: k <= j < m ==> PromptAt(h, j)
    ensures h.states[m].finished || h.states[m].stage.step != Prove
  {
    if !h.states[m].finished && h.states[m].stage.step == Prove {
      SuccessIsPermanent(h, k, m);
      AnswersAddUp(h, k, m);
      AnswersBounded(h, m);
      RunInv(h, m);
      assert false;
    }
  }
}
