/** Whole-run consequences of the matching: work is neither lost nor doubled, and at most
    max_prover_num segments are in progress. */
module WorkerProgress {
  import opened DeferredFiles
  import opened Tasks
  import opened ProverReplies
  import opened StageSpec
  import opened StageInvariant
  import opened StageSteps
  import opened StageBuild
  import opened WorkerSpec
  import opened WorkerCalls
  import opened WorkerInvariant
  import opened WorkerSafety
  import opened WorkerLiveness

  // Dispatch keeps the matching

  lemma NotDeferred(ts: seq<ProveTask>, files: seq<DeferredFile>, id: TaskId, i: nat)
    requires i < |ts + DeferredTasks(files, id)| && (ts + DeferredTasks(files, id))[i].state == Processing
    ensures i < |ts| && (ts + DeferredTasks(files, id))[i] == ts[i]
  {
  }

  /** Whatever is in progress after the build was so before, at the same place. */
  lemma {:induction false} GenTasksRunning(s: StageState, listing: seq<DirEntry>, i: nat)
    requires TasksOk(s) && !s.tasksGenDone
    requires i < |GenTasks(s, listing).proveTasks| && GenTasks(s, listing).proveTasks[i].state == Processing
    ensures i < |s.proveTasks| && GenTasks(s, listing).proveTasks[i] == s.proveTasks[i]
  {
    var fit := Fit(s);
    FitKeeps(s);
    GenTasksList(s, listing);
    NotDeferred(fit.proveTasks, SortByNumber(FilesIn(listing)), fit.nextId, i);
  }

  lemma {:induction false} GenTasksMatched(s: StageState, listing: seq<DirEntry>, calls: map<CallId, Task>)
    requires TasksOk(s) && !s.tasksGenDone && ListingOk(listing) && Matched(s, calls)
    ensures Matched(GenTasks(s, listing), calls)
  {
    var s1 := GenTasks(s, listing);
    GenTasksPhase(s, listing);
    GenTasksFresh(s, listing);
    forall i | 0 <= i < |s1.proveTasks| && s1.proveTasks[i].state == Processing
      ensures ProveCalled(calls, s1.proveTasks[i].taskId)
    {
      GenTasksRunning(s, listing, i);
    }
  }

  lemma AdvanceMatched(s: StageState, calls: map<CallId, Task>)
    requires Matched(s, calls) && SnarkMatched(s, calls)
    ensures Matched(Advance(s), calls) && SnarkMatched(Advance(s), calls)
  {
  }

  lemma GenProveMatched(s: StageState, segmentsTxt: Option<nat>, calls: map<CallId, Task>)
    requires Matched(s, calls) && SnarkMatched(s, calls)
    ensures Matched(GenProve(s, segmentsTxt), calls) && SnarkMatched(GenProve(s, segmentsTxt), calls)
  {
  }

  lemma {:induction false} DispatchMatched(
    s: StageState, segmentsTxt: Option<nat>, listing: seq<DirEntry>, calls: map<CallId, Task>, job: Job)
    requires TasksOk(s) && s.step == Prove && ListingFits(job, listing)
    requires Matched(s, calls) && SnarkMatched(s, calls)
    ensures Matched(DispatchProve(s, segmentsTxt, listing), calls)
    ensures SnarkMatched(DispatchProve(s, segmentsTxt, listing), calls)
  {
    var s1 := GenProve(s, segmentsTxt);
    ProducedListingOk(listing, job);
    GenProveKeeps(s, segmentsTxt);
    GenProveMatched(s, segmentsTxt, calls);
    if s1.splitTask.state != Success || s1.tasksGenDone {
      AdvanceMatched(s1, calls);
    } else if s1.gen.targetStep != Split {
      GenTasksMatched(s1, listing, calls);
      GenTasksPhase(s1, listing);
      AdvanceMatched(GenTasks(s1, listing), calls);
    }
  }

  /** No reply of this iteration loses its task. */
  ghost predicate Lossless(w: Worker, e: Event) {
    var w1 := Spawn(w, e);
    e.delivery.Some? && e.delivery.value.call in w1.calls ==>
      !LosesTask(w1.stage, w1.calls[e.delivery.value.call], e.delivery.value.reply)
  }

  ghost predicate LosslessAt(h: History, k: nat) {
    k < |h.events| < |h.states| && Lossless(h.states[k], h.events[k])
  }

  /** No reply of the run loses its task. */
  ghost predicate RunLossless(h: History) {
    forall k :: 0 <= k < |h.events| ==> LosslessAt(h, k)
  }

  lemma {:induction false} SpawnMatched(w: Worker, e: Event, job: Job)
    requires Inv(w, job) && AllMatched(w)
    ensures AllMatched(Spawn(w, e))
  {
    var w1 := SpawnSplit(w, e.splitAt);
    var w2 := SpawnProve(w1, e.segments, e.proveAt);
    var w3 := SpawnAgg(w2, e.aggAt);
    SpawnSplitMatched(w, e.splitAt);
    SpawnSplitInv(w, e.splitAt, job);
    SpawnProveMatched(w1, e.segments, e.proveAt);
    SpawnProveInv(w1, e.segments, e.proveAt, job);
    SpawnAggMatched(w2, e.aggAt);
    SpawnAggInv(w2, e.aggAt, job);
    SpawnSnarkMatched(w3, e.snarkAt);
  }

  lemma {:induction false} FinishMatched(w: Worker, e: Event, job: Job)
    requires Core(w.stage, w.calls, w.nextCall, job) && ListingFits(job, e.listing) && AllMatched(w)
    ensures AllMatched(Finish(w, e))
  {
    if w.stage.step == Prove {
      DispatchMatched(w.stage, e.segmentsTxt, e.listing, w.calls, job);
    }
  }

  /** The outstanding calls that work on the prove task named id. */
  function ProveCallsOf(calls: map<CallId, Task>, id: TaskId): set<CallId> {
    set c | c in calls && calls[c].ProveCall? && calls[c].prove.taskId == id
  }

  function AggCallsOf(calls: map<CallId, Task>, id: TaskId): set<CallId> {
    set c | c in calls && calls[c].AggCall? && calls[c].agg.taskId == id
  }

  function SplitCalls(calls: map<CallId, Task>): set<CallId> {
    set c | c in calls && calls[c].SplitCall?
  }

  /** Work is neither lost nor doubled: a listed task has one outstanding call if it is
      in progress, and none otherwise. */
  ghost predicate OneCallEach(s: StageState, calls: map<CallId, Task>) {
    && |SplitCalls(calls)| == (if s.splitTask.state == Processing then 1 else 0)
    && (forall i :: 0 <= i < |s.proveTasks| ==>
         |ProveCallsOf(calls, s.proveTasks[i].taskId)| == if s.proveTasks[i].state == Processing then 1 else 0)
    && (forall p :: 0 <= p < |s.aggTasks| ==>
         |AggCallsOf(calls, s.aggTasks[p].taskId)| == if s.aggTasks[p].state == Processing then 1 else 0)
  }

  lemma SingletonSize(calls: set<CallId>, c: CallId)
    requires c in calls && forall d :: d in calls ==> d == c
    ensures |calls| == 1
  {
    assert calls == {c};
  }

  lemma {:induction false} MatchedMeansOneEach(s: StageState, calls: map<CallId, Task>, nextCall: CallId)
    requires IdsOk(s) && CallsOk(s, calls, nextCall) && Matched(s, calls)
    ensures OneCallEach(s, calls)
  {
    if s.splitTask.state == Processing {
      var c :| c in calls && calls[c].SplitCall?;
      SingletonSize(SplitCalls(calls), c);
    } else {
      assert SplitCalls(calls) == {};
    }
    forall i | 0 <= i < |s.proveTasks|
      ensures |ProveCallsOf(calls, s.proveTasks[i].taskId)| == if s.proveTasks[i].state == Processing then 1 else 0
    {
      var id := s.proveTasks[i].taskId;
      if s.proveTasks[i].state == Processing {
        assert ProveCalled(calls, id);
        var c :| c in calls && calls[c].ProveCall? && calls[c].prove.taskId == id;
        SingletonSize(ProveCallsOf(calls, id), c);
      } else {
        assert ProveCallsOf(calls, id) == {};
      }
    }
    forall p | 0 <= p < |s.aggTasks|
      ensures |AggCallsOf(calls, s.aggTasks[p].taskId)| == if s.aggTasks[p].state == Processing then 1 else 0
    {
      var id := s.aggTasks[p].taskId;
      if s.aggTasks[p].state == Processing {
        assert AggCalled(calls, id);
        var c :| c in calls && calls[c].AggCall? && calls[c].agg.taskId == id;
        SingletonSize(AggCallsOf(calls, id), c);
      } else {
        forall c | c in calls && calls[c].AggCall?
          ensures calls[c].agg.taskId != id
        {
          assert CallOk(s, calls[c]);
        }
        assert AggCallsOf(calls, id) == {};
      }
    }
  }

  lemma {:induction false} StepMatched(h: History, k: nat)
    requires IsRun(h) && RunLossless(h) && 0 < k < |h.states| && AllMatched(h.states[k - 1])
    ensures AllMatched(h.states[k])
  {
    var w, e := h.states[k - 1], h.events[k - 1];
    assert Follows(h, k) && LosslessAt(h, k - 1);
    RunInv(h, k - 1);
    if !w.finished {
      var w1 := Spawn(w, e);
      SpawnInv(w, e, h.job);
      SpawnMatched(w, e, h.job);
      ReceiveCore(w1, e, h.job);
      if e.delivery.Some? && e.delivery.value.call in w1.calls {
        ReceiveMatched(w1, e.delivery.value, e.receiveAt);
      }
      FinishMatched(Receive(w1, e.delivery, e.receiveAt), e, h.job);
    }
  }

  /** In every run without losing replies, tasks in progress and outstanding calls match
      one to one. */
  lemma {:induction false} NothingLostOrDoubled(h: History, k: nat)
    requires IsRun(h) && RunLossless(h) && k < |h.states|
    ensures AllMatched(h.states[k])
    ensures OneCallEach(h.states[k].stage, h.states[k].calls)
  {
    if k > 0 {
      NothingLostOrDoubled(h, k - 1);
      StepMatched(h, k);
    } else {
      assert Follows(h, k);
    }
    RunInv(h, k);
    MatchedMeansOneEach(h.states[k].stage, h.states[k].calls, h.states[k].nextCall);
  }

  // The number of segments in progress

  lemma {:induction false} CountPrefix(ts: seq<ProveTask>, n: nat, p: ProveTask -> bool)
    requires n <= |ts|
    ensures CountWhere(ts[..n], p) <= CountWhere(ts, p)
  {
    assert ts == ts[..n] + ts[n..];
    CountWhereConcat(ts[..n], ts[n..], p);
  }

  ghost predicate Bounded(s: StageState) {
    CountProcessing(s) <= s.gen.maxProverNum
  }

  lemma SpawnProveBounded(w: Worker, segments: set<nat>, now: nat)
    requires Bounded(w.stage)
    ensures Bounded(SpawnProve(w, segments, now).stage)
  {
    var i, s1 := FirstWhere(w.stage.proveTasks, ReadyProve(segments)), GetProve(w.stage, segments, now).0;
    if i < |w.stage.proveTasks| {
      CountWhereUpdate(w.stage.proveTasks, i, s1.proveTasks[i], ProveIn(Processing));
    }
  }

  lemma OnProveBounded(s: StageState, m: ProveTask, now: nat)
    requires Bounded(s)
    ensures Bounded(OnProve(s, m, now))
  {
    var i := FirstWhere(s.proveTasks, RunningProve(m.taskId));
    if i < |s.proveTasks| && Accepted(m.state) {
      CountWhereUpdate(s.proveTasks, i, Answered(s.proveTasks[i], m, now), ProveIn(Processing));
    }
  }

  lemma {:induction false} AppendBounded(s: StageState, more: seq<ProveTask>)
    requires Bounded(s) && forall k :: 0 <= k < |more| ==> more[k].state != Processing
    ensures Bounded(Appended(s, more))
  {
    CountWhereConcat(s.proveTasks, more, ProveIn(Processing));
    CountWhereNone(more, ProveIn(Processing));
  }

  lemma GenProveBounded(s: StageState, segmentsTxt: Option<nat>)
    requires Bounded(s)
    ensures Bounded(GenProve(s, segmentsTxt))
  {
    var s1 := if s.proveTasks == [] then ExtendTo(s, PREALLOCATED) else s;
    AppendBounded(s, NewTasks(|s.proveTasks|, PREALLOCATED, s.nextId));
    if segmentsTxt.Some? {
      AppendBounded(s1, NewTasks(|s1.proveTasks|, segmentsTxt.value, s1.nextId));
    }
  }

  lemma GenTasksBounded(s: StageState, listing: seq<DirEntry>)
    requires Bounded(s)
    ensures Bounded(GenTasks(s, listing))
  {
    var total, fit, files := s.splitTask.totalSegments, Fit(s), SortByNumber(FilesIn(listing));
    if |s.proveTasks| > total {
      CountPrefix(s.proveTasks, total, ProveIn(Processing));
    } else {
      AppendBounded(s, NewTasks(|s.proveTasks|, total, s.nextId));
    }
    AppendBounded(fit, DeferredTasks(files, fit.nextId));
    GenTasksPhase(s, listing);
    GenTasksList(s, listing);
  }

  lemma DispatchBounded(s: StageState, segmentsTxt: Option<nat>, listing: seq<DirEntry>)
    requires Bounded(s) && s.step == Prove
    ensures Bounded(Dispatch(s, segmentsTxt, listing))
  {
    GenProveBounded(s, segmentsTxt);
    GenProvePhase(s, segmentsTxt);
    GenTasksBounded(GenProve(s, segmentsTxt), listing);
    DispatchPhase(s, segmentsTxt, listing);
  }

  lemma ReceiveBounded(w: Worker, delivery: Option<Delivery>, now: nat)
    requires Bounded(w.stage)
    ensures Bounded(Receive(w, delivery, now).stage)
  {
    if delivery.Some? && delivery.value.call in w.calls {
      match w.calls[delivery.value.call]
      case ProveCall(t) => OnProveBounded(w.stage, ProveReply(t, delivery.value.reply), now);
      case AggCall(t) => OnAggPhase(w.stage, AggReply(t, delivery.value.reply), now);
      case _ =>
    }
  }

  lemma SpawnAggBounded(w: Worker, now: nat)
    requires Bounded(w.stage)
    ensures Bounded(SpawnAgg(w, now).stage)
  {
    assert SpawnAgg(w, now).stage.proveTasks == w.stage.proveTasks;
    SpawnAggPhase(w, now);
  }

  lemma SpawnSplitBounded(w: Worker, now: nat)
    requires Bounded(w.stage)
    ensures Bounded(SpawnSplit(w, now).stage)
  {
  }

  lemma SpawnSnarkBounded(w: Worker, now: nat)
    requires Bounded(w.stage)
    ensures Bounded(SpawnSnark(w, now).stage)
  {
  }

  lemma SpawnBounded(w: Worker, e: Event)
    requires Bounded(w.stage)
    ensures Bounded(Spawn(w, e).stage)
  {
    var w1 := SpawnSplit(w, e.splitAt);
    var w2 := SpawnProve(w1, e.segments, e.proveAt);
    var w3 := SpawnAgg(w2, e.aggAt);
    SpawnSplitBounded(w, e.splitAt);
    SpawnProveBounded(w1, e.segments, e.proveAt);
    SpawnAggBounded(w2, e.aggAt);
    SpawnSnarkBounded(w3, e.snarkAt);
  }

  lemma {:induction false} StepBounded(h: History, k: nat)
    requires IsRun(h) && 0 < k < |h.states| && Bounded(h.states[k - 1].stage)
    ensures Bounded(h.states[k].stage)
  {
    var w, e := h.states[k - 1], h.events[k - 1];
    var w1 := Receive(Spawn(w, e), e.delivery, e.receiveAt);
    assert Follows(h, k);
    StepsVisited(h, k - 1, k - 1);
    SpawnBounded(w, e);
    ReceiveBounded(Spawn(w, e), e.delivery, e.receiveAt);
    BeforeFinish(w, e);
    if w1.stage.step == Prove {
      DispatchBounded(w1.stage, e.segmentsTxt, e.listing);
    }
  }

  /** At no time are more than max_prover_num segments being proved. */
  lemma {:induction false} NeverMoreThanMax(h: History, k: nat)
    requires IsRun(h) && k < |h.states|
    ensures CountProcessing(h.states[k].stage) <= h.gen.maxProverNum
  {
    RunGen(h, k);
    if k > 0 {
      NeverMoreThanMax(h, k - 1);
      RunGen(h, k - 1);
      StepBounded(h, k);
    } else {
      assert Follows(h, k);
    }
  }
}
