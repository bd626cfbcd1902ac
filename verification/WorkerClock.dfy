/** Time stamps: with a clock that does not run backwards, no duration the worker computes
    underflows, although a retried task has start > finish for a while. */
module WorkerClock {
  import opened AggPlan
  import opened DeferredFiles
  import opened Tasks
  import opened ProverReplies
  import opened StageSpec
  import opened StageInvariant
  import opened StageSteps
  import opened WorkerSpec
  import opened WorkerInvariant

  /** No stamp lies in the future; what is done or was never begun is ordered, and what is in
      progress has not finished since it started. */
  predicate TimeOk(t: Trace, state: TaskState, now: nat) {
    && t.startTs <= now && t.finishTs <= now
    && (state == Success || state == Initial ==> t.Ordered())
    && (state == Processing ==> t.finishTs <= t.startTs)
  }

  ghost predicate ProveTimes(ts: seq<ProveTask>, now: nat) {
    forall i :: 0 <= i < |ts| ==> TimeOk(ts[i].trace, ts[i].state, now)
  }

  ghost predicate AggTimes(ts: seq<AggTask>, now: nat) {
    forall p :: 0 <= p < |ts| ==> TimeOk(ts[p].trace, ts[p].state, now)
  }

  ghost predicate StageTimes(s: StageState, now: nat) {
    && TimeOk(s.splitTask.trace, s.splitTask.state, now)
    && TimeOk(s.snarkTask.trace, s.snarkTask.state, now)
    && ProveTimes(s.proveTasks, now) && AggTimes(s.aggTasks, now)
  }

  /** The tasks whose traces are saved when they come back have started already. */
  predicate CallTime(call: Task, now: nat) {
    match call
    case SplitCall(t) => t.trace.startTs <= now
    case SnarkCall(t) => t.trace.startTs <= now
    case _ => true
  }

  ghost predicate AllOrdered(saved: seq<Trace>) {
    forall i :: 0 <= i < |saved| ==> saved[i].Ordered()
  }

  ghost predicate ClockOk(w: Worker) {
    && StageTimes(w.stage, w.now)
    && (forall c :: c in w.calls ==> CallTime(w.calls[c], w.now))
    && AllOrdered(w.saved)
  }

  // Handing out

  lemma SpawnSplitClock(w: Worker, now: nat)
    requires ClockOk(w) && w.now <= now
    ensures ClockOk(SpawnSplit(w, now)) && SpawnSplit(w, now).now <= now
  {
  }

  lemma GetProveClock(s: StageState, segments: set<nat>, was: nat, now: nat)
    requires StageTimes(s, was) && was <= now
    ensures StageTimes(GetProve(s, segments, now).0, now)
  {
  }

  lemma SpawnProveClock(w: Worker, segments: set<nat>, now: nat)
    requires ClockOk(w) && w.now <= now
    ensures ClockOk(SpawnProve(w, segments, now)) && SpawnProve(w, segments, now).now <= now
  {
    GetProveClock(w.stage, segments, w.now, now);
  }

  lemma GetAggClock(s: StageState, was: nat, now: nat)
    requires StageTimes(s, was) && was <= now
    ensures StageTimes(GetAgg(s, now).0, now)
  {
  }

  lemma SpawnAggClock(w: Worker, now: nat)
    requires ClockOk(w) && w.now <= now
    ensures ClockOk(SpawnAgg(w, now)) && SpawnAgg(w, now).now <= now
  {
    GetAggClock(w.stage, w.now, now);
  }

  lemma SpawnSnarkClock(w: Worker, now: nat)
    requires ClockOk(w) && w.now <= now
    ensures ClockOk(SpawnSnark(w, now)) && SpawnSnark(w, now).now <= now
  {
  }

  lemma SpawnClock(w: Worker, e: Event)
    requires ClockOk(w) && w.now <= e.splitAt <= e.proveAt <= e.aggAt <= e.snarkAt
    ensures ClockOk(Spawn(w, e)) && Spawn(w, e).now <= e.snarkAt
  {
    var w1 := SpawnSplit(w, e.splitAt);
    var w2 := SpawnProve(w1, e.segments, e.proveAt);
    var w3 := SpawnAgg(w2, e.aggAt);
    SpawnSplitClock(w, e.splitAt);
    SpawnProveClock(w1, e.segments, e.proveAt);
    SpawnAggClock(w2, e.aggAt);
    SpawnSnarkClock(w3, e.snarkAt);
  }

  // Receiving

  lemma OnProveClock(s: StageState, m: ProveTask, now: nat)
    requires StageTimes(s, now)
    ensures StageTimes(OnProve(s, m, now), now)
  {
    var s1 := AcceptProve(s, m, now);
    assert ProveTimes(s1.proveTasks, now) && s1.aggTasks == s.aggTasks;
    ClearAggKeeps(s1.aggTasks, m.taskId);
  }

  lemma OnAggClock(s: StageState, m: AggTask, now: nat)
    requires StageTimes(s, now)
    ensures StageTimes(OnAgg(s, m, now), now)
  {
    var s1 := AcceptAgg(s, m, now);
    assert AggTimes(s1.aggTasks, now) && s1.proveTasks == s.proveTasks;
    ClearAggKeeps(s1.aggTasks, m.taskId);
  }

  lemma TakeClock(w: Worker, call: Task, r: Reply, now: nat)
    requires ClockOk(w) && w.now <= now && CallTime(call, now) && StageTimes(w.stage, now)
    ensures ClockOk(Take(w, call, r, now)) && Take(w, call, r, now).now == now
  {
    match call
    case ProveCall(t) => OnProveClock(w.stage, ProveReply(t, r), now);
    case AggCall(t) => OnAggClock(w.stage, AggReply(t, r), now);
    case _ =>
  }

  lemma ReceiveClock(w: Worker, delivery: Option<Delivery>, now: nat)
    requires ClockOk(w) && w.now <= now
    ensures ClockOk(Receive(w, delivery, now)) && Receive(w, delivery, now).now <= now
  {
    if delivery.Some? && delivery.value.call in w.calls {
      var c := delivery.value.call;
      TakeClock(w.(calls := w.calls - {c}), w.calls[c], delivery.value.reply, now);
    }
  }

  // Dispatching

  lemma GenProveClock(s: StageState, segmentsTxt: Option<nat>, now: nat)
    requires StageTimes(s, now)
    ensures StageTimes(GenProve(s, segmentsTxt), now)
  {
    GenProvePhase(s, segmentsTxt);
  }

  lemma {:induction false} GenProvePostClock(s: StageState, listing: seq<DirEntry>, now: nat)
    requires ProveTimes(s.proveTasks, now)
    ensures ProveTimes(GenProvePost(s, listing).proveTasks, now)
  {
  }

  lemma {:induction false} GenTreeClock(s: StageState, now: nat)
    requires AggTimes(s.aggTasks, now)
    ensures AggTimes(GenTree(s).aggTasks, now) && GenTree(s).proveTasks == s.proveTasks
  {
    var leaves := LeafTasks(s.proveTasks);
    var all := s.aggTasks + TreePrefix(leaves, s.nextId, |Plan(|leaves|)|);
    assert AggTimes(all, now);
    assert AggTimes(MarkFinal(all), now);
  }

  lemma {:induction false} GenTasksClock(s: StageState, listing: seq<DirEntry>, now: nat)
    requires StageTimes(s, now)
    ensures StageTimes(GenTasks(s, listing), now)
  {
    var s1 := GenProvePost(s, listing);
    var s2 := GenTree(s1);
    GenTasksPhase(s, listing);
    GenProvePostClock(s, listing, now);
    GenTreeClock(s1, now);
    ClearAllKeeps(s2.aggTasks, SuccessfulIds(s2.proveTasks));
  }

  lemma {:induction false} DispatchClock(s: StageState, segmentsTxt: Option<nat>, listing: seq<DirEntry>, now: nat)
    requires StageTimes(s, now) && s.step == Prove
    ensures StageTimes(Dispatch(s, segmentsTxt, listing), now)
  {
    var s1 := GenProve(s, segmentsTxt);
    GenProveClock(s, segmentsTxt, now);
    GenProvePhase(s, segmentsTxt);
    if !s1.tasksGenDone {
      GenTasksClock(s1, listing, now);
    }
    DispatchPhase(s, segmentsTxt, listing);
    SnarkTrace(s, segmentsTxt, listing);
  }

  /** Dispatch never touches the trace of the snark task. */
  lemma {:induction false} SnarkTrace(s: StageState, segmentsTxt: Option<nat>, listing: seq<DirEntry>)
    requires s.step == Prove
    ensures var t, t1 := s.snarkTask, Dispatch(s, segmentsTxt, listing).snarkTask;
      t1 == t || (t1.state == Unprocessed && t1.trace == t.trace)
  {
    var s1 := GenProve(s, segmentsTxt);
    GenProvePhase(s, segmentsTxt);
    GenTasksPhase(s1, listing);
    SnarkTraceAdvance(s1);
    SnarkTraceAdvance(GenTasks(s1, listing));
  }

  lemma SnarkTraceAdvance(s: StageState)
    ensures var t, t1 := s.snarkTask, Advance(s).snarkTask;
      t1 == t || (t1.state == Unprocessed && t1.trace == t.trace)
  {
  }

  lemma {:induction false} FinishClock(w: Worker, e: Event)
    requires ClockOk(w)
    requires w.stage.step == Prove || w.stage.step == StageSpec.Snark || w.stage.step == End
    ensures ClockOk(Finish(w, e))
  {
    if w.stage.step == Prove {
      DispatchClock(w.stage, e.segmentsTxt, e.listing, w.now);
    }
  }

  lemma {:induction false} StepClock(h: History, k: nat)
    requires IsRun(h) && 0 < k < |h.states| && ClockOk(h.states[k - 1])
    ensures ClockOk(h.states[k])
  {
    var w, e := h.states[k - 1], h.events[k - 1];
    assert Follows(h, k);
    RunInv(h, k - 1);
    if !w.finished {
      var w1 := Spawn(w, e);
      SpawnClock(w, e);
      SpawnInv(w, e, h.job);
      ReceiveCore(w1, e, h.job);
      ReceiveClock(w1, e.delivery, e.receiveAt);
      FinishClock(Receive(w1, e.delivery, e.receiveAt), e);
    }
  }

  lemma {:induction false} RunClock(h: History, k: nat)
    requires IsRun(h) && k < |h.states|
    ensures ClockOk(h.states[k])
  {
    if k > 0 {
      RunClock(h, k - 1);
      StepClock(h, k);
    } else {
      assert Follows(h, 0);
    }
  }

  /** Every trace of the stage, in the order the worker prints them. */
  function Traces(s: StageState): seq<Trace> {
    seq(|s.proveTasks|, i requires 0 <= i < |s.proveTasks| => s.proveTasks[i].trace) +
    seq(|s.aggTasks|, p requires 0 <= p < |s.aggTasks| => s.aggTasks[p].trace) +
    [s.splitTask.trace, s.snarkTask.trace]
  }

  lemma {:induction false} SuccessOrdered(s: StageState, now: nat, job: Job)
    requires TasksOk(s) && Rest(s, job) && StageTimes(s, now) && IsSuccess(s)
    ensures AllOrdered(Traces(s))
  {
    forall i | 0 <= i < |s.proveTasks|
      ensures s.proveTasks[i].trace.Ordered()
    {
      assert s.proveTasks[i].state == Success;
    }
    forall p | 0 <= p < |s.aggTasks|
      ensures s.aggTasks[p].trace.Ordered()
    {
      assert s.aggTasks[p].state == Success;
    }
  }

  /** finish_ts - start_ts never underflows: not for any trace saved along the way, and,
      once the stage has succeeded, for none of its tasks. */
  lemma {:induction false} DurationsDefined(h: History, k: nat)
    requires IsRun(h) && k < |h.states|
    ensures AllOrdered(h.states[k].saved)
    ensures IsSuccess(h.states[k].stage) ==> AllOrdered(Traces(h.states[k].stage))
  {
    RunInv(h, k);
    RunClock(h, k);
    if IsSuccess(h.states[k].stage) {
      SuccessOrdered(h.states[k].stage, h.states[k].now, h.job);
    }
  }

  /** The trace can be measured exactly if the clock stood still between its two stamps. */
  predicate MeasuredIffStill(t: Trace) {
    t.Ordered() <==> t.startTs == t.finishTs
  }

  /** Only once it is done: in every run, a task in progress has no duration, unless it was
      handed out at the very moment it had failed (or at time 0, if it had not). */
  lemma {:induction false} RetryHasNoDuration(h: History, k: nat)
    requires IsRun(h) && k < |h.states|
    ensures var s := h.states[k].stage;
      && (forall i :: 0 <= i < |s.proveTasks| && s.proveTasks[i].state == Processing ==>
           MeasuredIffStill(s.proveTasks[i].trace))
      && (forall p :: 0 <= p < |s.aggTasks| && s.aggTasks[p].state == Processing ==>
           MeasuredIffStill(s.aggTasks[p].trace))
      && (s.splitTask.state == Processing ==> MeasuredIffStill(s.splitTask.trace))
      && (s.snarkTask.state == Processing ==> MeasuredIffStill(s.snarkTask.trace))
  {
    RunClock(h, k);
  }
}
