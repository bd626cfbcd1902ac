/** What the splitter leaves is what the stage waits for: the files of a finished splitter
    serve every stage of the same job, provided each checkpoint was traced into one record. */
module SplitHandover {
  import opened Tasks
  import opened StageSpec
  import opened StageInvariant
  import opened WorkerInvariant
  import opened WorkerBounds
  import opened SplitFold
  import SplitPipeline

  /** The numbers of the segment files that a splitter has written. */
  function Written(input: Input, workers: nat, schedule: seq<SplitPipeline.Action>): set<nat>
    requires InputOk(input)
  {
    SplitPipeline.After(input, workers, schedule).files.Keys
  }

  /** The splitter has finished, and the job is the one it reports. */
  ghost predicate Splits(input: Input, workers: nat, schedule: seq<SplitPipeline.Action>, job: Job)
    requires InputOk(input)
  {
    var s := SplitPipeline.After(input, workers, schedule);
    workers >= 1 && SplitPipeline.Finished(s) && s.segmentIndex == job.segments
  }

  /** Once the list is final, only tasks for the job's segments are not done. */
  lemma {:induction false} OpenTasks(h: History, k: nat, i: nat)
    requires IsRun(h) && k < |h.states| && h.states[k].stage.tasksGenDone
    requires i < |h.states[k].stage.proveTasks| && h.states[k].stage.proveTasks[i].state != Success
    ensures i < h.job.segments && h.states[k].stage.proveTasks[i].fileNo == i
  {
    var s := h.states[k].stage;
    RunInv(h, k);
    assert ProveOk(s.proveTasks[i], i);
    assert LeafReceipts(s.proveTasks)[i] == JobLeaves(h.job)[i];
  }

  ghost predicate AllOpen(s: StageState, job: Job) {
    |s.proveTasks| >= job.segments && forall i :: 0 <= i < job.segments ==> s.proveTasks[i].state != Success
  }

  /** With single records the files of the splitter are all that any stage of the job waits
      for.  Otherwise one is missing: a stage that has proved no segment waits for it. */
  lemma {:induction false} SplitterServes(
    h: History, k: nat, input: Input, workers: nat, schedule: seq<SplitPipeline.Action>)
    requires IsRun(h) && k < |h.states| && InputOk(input) && Splits(input, workers, schedule, h.job)
    ensures AllOnes(Counts(input)) ==> SegmentsPresent(h.states[k].stage, Written(input, workers, schedule))
    ensures h.states[k].stage.tasksGenDone && AllOpen(h.states[k].stage, h.job) ==>
      (SegmentsPresent(h.states[k].stage, Written(input, workers, schedule)) <==> AllOnes(Counts(input)))
  {
    var s, files := h.states[k].stage, SplitPipeline.After(input, workers, schedule).files;
    SplitPipeline.SegmentsComplete(input, workers, schedule);
    if s.tasksGenDone {
      forall i | 0 <= i < |s.proveTasks| && s.proveTasks[i].state != Success
        ensures i < h.job.segments && s.proveTasks[i].fileNo == i
      {
        OpenTasks(h, k, i);
      }
      if AllOpen(s, h.job) && !AllOnes(Counts(input)) {
        var x: nat :| x < h.job.segments && x !in files;
        assert s.proveTasks[x].fileNo !in files;
      }
    }
  }
}
