/** The event loop gets somewhere: it always has an outstanding call, can make one, or is
    about to end; and once the tree is built only so many decisive answers can arrive. */
module WorkerBounds {
  import opened AggPlan
  import opened DeferredFiles
  import opened Tasks
  import opened ProverReplies
  import opened StageSpec
  import opened StageInvariant
  import opened StageSteps
  import opened StageProgress
  import opened WorkerSpec
  import opened WorkerInvariant
  import opened WorkerSafety
  import opened WorkerLiveness
  import opened WorkerProgress

  // No stalling

  predicate AllDone(s: StageState) {
    AllProved(s) && (s.gen.compositeProof || AllAggregated(s))
  }

  /** Dispatch has done all it can do in the current step. */
  ghost predicate Settled(s: StageState) {
    && s.snarkTask.state != Success
    && (s.step == Prove && s.splitTask.state == Success ==> s.tasksGenDone && !AllDone(s))
  }

  lemma AdvanceSettles(s: StageState)
    requires s.step == Prove && s.snarkTask.state != Success
    requires s.splitTask.state == Success ==> s.tasksGenDone
    ensures Settled(Advance(s))
  {
  }

  lemma {:induction false} DispatchSettles(s: StageState, segmentsTxt: Option<nat>, listing: seq<DirEntry>)
    requires s.step == Prove && s.snarkTask.state != Success
    ensures Settled(Dispatch(s, segmentsTxt, listing))
  {
    var s1 := GenProve(s, segmentsTxt);
    GenProvePhase(s, segmentsTxt);
    if s1.splitTask.state == Success && !s1.tasksGenDone {
      GenTasksPhase(s1, listing);
      if s1.gen.targetStep != Split {
        AdvanceSettles(GenTasks(s1, listing));
      }
    } else {
      AdvanceSettles(s1);
    }
  }

  lemma {:induction false} RunSettled(h: History, k: nat)
    requires IsRun(h) && k < |h.states|
    ensures h.states[k].finished || Settled(h.states[k].stage)
  {
    assert Follows(h, k);
    if k > 0 && !h.states[k - 1].finished {
      var w, e := h.states[k - 1], h.events[k - 1];
      BeforeFinish(w, e);
      StepsVisited(h, k - 1, k - 1);
      FinishSettles(Receive(Spawn(w, e), e.delivery, e.receiveAt), e);
    }
  }

  lemma {:induction false} FinishSettles(w: Worker, e: Event)
    requires w.stage.step == Prove || w.stage.step == StageSpec.Snark || w.stage.step == End
    ensures Finish(w, e).finished || Settled(Finish(w, e).stage)
  {
    if w.stage.step == Prove && w.stage.snarkTask.state != Success {
      DispatchSettles(w.stage, e.segmentsTxt, e.listing);
    }
  }

  /** Once the list is final, the files of the segments still to be proved are there. */
  predicate SegmentsPresent(s: StageState, segments: set<nat>) {
    s.tasksGenDone ==>
      forall i :: 0 <= i < |s.proveTasks| && s.proveTasks[i].state != Success ==> s.proveTasks[i].fileNo in segments
  }

  lemma NoCallsNoneRunning(w: Worker)
    requires AllMatched(w) && w.calls == map[]
    ensures w.stage.splitTask.state != Processing && w.stage.snarkTask.state != Processing
    ensures forall i :: 0 <= i < |w.stage.proveTasks| ==> w.stage.proveTasks[i].state != Processing
    ensures forall p :: 0 <= p < |w.stage.aggTasks| ==> w.stage.aggTasks[p].state != Processing
  {
  }

  lemma {:induction false} ProveHandedOut(w: Worker, segments: set<nat>, now: nat)
    requires ProvesOk(w.stage) && AllMatched(w) && w.calls == map[] && w.stage.step == Prove
    requires w.stage.tasksGenDone && !AllProved(w.stage)
    requires SegmentsPresent(w.stage, segments) && w.stage.gen.maxProverNum >= 1
    ensures SpawnProve(w, segments, now).calls != map[]
  {
    var s := w.stage;
    NoCallsNoneRunning(w);
    CountWhereNone(s.proveTasks, ProveIn(Processing));
    var i :| 0 <= i < |s.proveTasks| && s.proveTasks[i].state != Success;
    assert ProveOk(s.proveTasks[i], i);
    assert ReadyProve(segments)(s.proveTasks[i]);
    assert w.nextCall in SpawnProve(w, segments, now).calls;
  }

  lemma {:induction false} AggHandedOut(w: Worker, now: nat)
    requires TasksOk(w.stage) && AllMatched(w) && w.calls == map[] && w.stage.step == Prove
    requires Built(w.stage) && AllProved(w.stage) && !AllAggregated(w.stage) && w.stage.gen.maxProverNum >= 1
    ensures SpawnAgg(w, now).calls != map[]
  {
    NoCallsNoneRunning(w);
    NoAggDeadlock(w.stage);
    CountWhereNone(w.stage.proveTasks, ProveNotIn(Success));
    assert w.nextCall in SpawnAgg(w, now).calls;
  }

  lemma SpawnedNone(w: Worker, stage: StageState, call: Option<Task>, now: nat)
    ensures Spawned(w, stage, call, now).calls == map[] ==> call.None? && w.calls == map[]
  {
    if call.Some? {
      assert w.nextCall in Spawned(w, stage, call, now).calls;
    }
  }

  // A spawn function that leaves no outstanding call has changed nothing.

  lemma SplitCallsGrow(w: Worker, now: nat)
    ensures SpawnSplit(w, now).calls == map[] ==> w.calls == map[] && SpawnSplit(w, now).stage == w.stage
  {
    var (stage, task) := GetSplit(w.stage, now);
    SpawnedNone(w, stage, if task.Some? then Some(SplitCall(task.value)) else None, now);
  }

  lemma ProveCallsGrow(w: Worker, segments: set<nat>, now: nat)
    ensures SpawnProve(w, segments, now).calls == map[] ==> w.calls == map[] && SpawnProve(w, segments, now).stage == w.stage
  {
    var (stage, task) := GetProve(w.stage, segments, now);
    SpawnedNone(w, stage, if task.Some? then Some(ProveCall(task.value)) else None, now);
  }

  lemma AggCallsGrow(w: Worker, now: nat)
    ensures SpawnAgg(w, now).calls == map[] ==> w.calls == map[] && SpawnAgg(w, now).stage == w.stage
  {
    var (stage, task) := GetAgg(w.stage, now);
    SpawnedNone(w, stage, if task.Some? then Some(AggCall(task.value)) else None, now);
  }

  lemma SnarkCallsGrow(w: Worker, now: nat)
    ensures SpawnSnark(w, now).calls == map[] ==> w.calls == map[] && SpawnSnark(w, now).stage == w.stage
  {
    var (stage, task) := GetSnark(w.stage, now);
    SpawnedNone(w, stage, if task.Some? then Some(SnarkCall(task.value)) else None, now);
  }

  lemma SplitHandedOut(w: Worker, now: nat)
    requires w.stage.step == Prove && Ready(w.stage.splitTask.state)
    ensures SpawnSplit(w, now).calls != map[]
  {
    assert w.nextCall in SpawnSplit(w, now).calls;
  }

  lemma SnarkHandedOut(w: Worker, now: nat)
    requires w.stage.step == StageSpec.Snark && Ready(w.stage.snarkTask.state)
    ensures SpawnSnark(w, now).calls != map[]
  {
    assert w.nextCall in SpawnSnark(w, now).calls;
  }

  lemma {:induction false} ProveStepHandsOut(w: Worker, segments: set<nat>, now: nat, job: Job)
    requires Inv(w, job) && AllMatched(w) && Settled(w.stage) && w.calls == map[]
    requires w.stage.step == Prove && w.stage.gen.maxProverNum >= 1 && SegmentsPresent(w.stage, segments)
    requires w.stage.splitTask.state == Success
    ensures SpawnProve(w, segments, now).calls != map[] || SpawnAgg(w, now).calls != map[]
  {
    if AllProved(w.stage) {
      AggHandedOut(w, now);
    } else {
      ProveHandedOut(w, segments, now);
    }
  }

  lemma {:induction false} SettledHandsOut(w: Worker, e: Event, job: Job)
    requires Inv(w, job) && AllMatched(w) && Settled(w.stage) && w.calls == map[]
    requires w.stage.step != End && w.stage.gen.maxProverNum >= 1 && SegmentsPresent(w.stage, e.segments)
    ensures Spawn(w, e).calls != map[]
  {
    var w1 := SpawnSplit(w, e.splitAt);
    var w2 := SpawnProve(w1, e.segments, e.proveAt);
    var w3 := SpawnAgg(w2, e.aggAt);
    SplitCallsGrow(w, e.splitAt);
    ProveCallsGrow(w1, e.segments, e.proveAt);
    AggCallsGrow(w2, e.aggAt);
    SnarkCallsGrow(w3, e.snarkAt);
    NoCallsNoneRunning(w);
    if w.stage.step == StageSpec.Snark {
      SnarkHandedOut(w, e.snarkAt);
    } else if w.stage.splitTask.state != Success {
      SplitHandedOut(w, e.splitAt);
    } else {
      ProveStepHandsOut(w, e.segments, e.proveAt, job);
      ProveStepHandsOut(w, e.segments, e.aggAt, job);
    }
  }

  lemma EndFinishes(w: Worker, e: Event)
    requires w.stage.step == End
    ensures Iterate(w, e).finished
  {
    BeforeFinish(w, e);
  }

  /** There is an outstanding call, one is made now, or the next iteration is the last. */
  ghost predicate Moving(w: Worker, e: Event) {
    w.calls != map[] || Spawn(w, e).calls != map[] || Iterate(w, e).finished
  }

  /** The event loop never stalls, as long as no reply loses its task and the segment
      files are there. */
  lemma {:induction false} NoStall(h: History, k: nat, e: Event)
    requires IsRun(h) && RunLossless(h) && k < |h.states| && h.gen.maxProverNum >= 1
    requires SegmentsPresent(h.states[k].stage, e.segments)
    ensures h.states[k].finished || Moving(h.states[k], e)
  {
    RunInv(h, k);
    RunSettled(h, k);
    RunGen(h, k);
    NothingLostOrDoubled(h, k);
    if !h.states[k].finished {
      LoopMoves(h.states[k], e, h.job);
    }
  }

  lemma {:induction false} LoopMoves(w: Worker, e: Event, job: Job)
    requires Inv(w, job) && AllMatched(w) && Settled(w.stage)
    requires w.stage.gen.maxProverNum >= 1 && SegmentsPresent(w.stage, e.segments)
    ensures Moving(w, e)
  {
    if w.stage.step == End {
      EndFinishes(w, e);
    } else if w.calls == map[] {
      SettledHandsOut(w, e, job);
    }
  }

  // The number of decisive answers

  /** Is this call about a prove or agg task that is listed and in progress? */
  predicate AboutListed(s: StageState, call: Task) {
    match call
    case ProveCall(t) => FirstWhere(s.proveTasks, RunningProve(t.taskId)) < |s.proveTasks|
    case AggCall(t) => FirstWhere(s.aggTasks, RunningAgg(t.taskId)) < |s.aggTasks|
    case _ => false
  }

  predicate DecisiveReply(call: Task, r: Reply) {
    match call
    case ProveCall(t) => Decisive(ProveReply(t, r).state)
    case AggCall(t) => Decisive(AggReply(t, r).state)
    case _ => false
  }

  /** Is this a decisive answer about a listed prove or agg task? */
  predicate CountedAnswer(s: StageState, call: Task, r: Reply) {
    AboutListed(s, call) && DecisiveReply(call, r)
  }

  function AnswerReceived(w: Worker, delivery: Option<Delivery>): nat {
    if w.stage.tasksGenDone && delivery.Some? && delivery.value.call in w.calls
      && CountedAnswer(w.stage, w.calls[delivery.value.call], delivery.value.reply)
    then 1 else 0
  }

  function AnswersIn(w: Worker, e: Event): nat {
    if w.finished then 0 else AnswerReceived(Spawn(w, e), e.delivery)
  }

  /** The decisive answers about prove and agg tasks received since the tree was built, in
      the first k iterations. */
  function Answers(events: seq<Event>, states: seq<Worker>, k: nat): nat
    requires k <= |events| < |states|
  {
    if k == 0 then 0 else Answers(events, states, k - 1) + AnswersIn(states[k - 1], events[k - 1])
  }

  /** Four attempts per leaf and one success per agg task. */
  function AnswerLimit(job: Job): nat {
    var n := |JobLeaves(job)|;
    4 * n + |Plan(n)|
  }

  ghost predicate WithinLimit(s: StageState, answers: nat, job: Job) {
    if s.tasksGenDone then answers + Remaining(s) <= AnswerLimit(job) + (if s.isError then 1 else 0)
    else answers == 0
  }

  lemma {:induction false} BuiltLimit(s: StageState, job: Job)
    requires TasksOk(s) && CoverOk(s, job) && s.tasksGenDone
    ensures Remaining(s) <= AnswerLimit(job)
  {
    assert |s.proveTasks| == |LeafReceipts(s.proveTasks)| == |JobLeaves(job)|;
    AttemptsBound(s.proveTasks);
    CountBound(s.aggTasks, AggNotIn(Success));
  }

  ghost predicate SameRemaining(s: StageState, s1: StageState) {
    Remaining(s1) == Remaining(s) && s1.isError == s.isError && s1.tasksGenDone == s.tasksGenDone
  }

  lemma SpawnSplitRemaining(w: Worker, now: nat)
    ensures SameRemaining(w.stage, SpawnSplit(w, now).stage)
  {
  }

  lemma SpawnSnarkRemaining(w: Worker, now: nat)
    ensures SameRemaining(w.stage, SpawnSnark(w, now).stage)
  {
  }

  lemma SpawnProveRemaining(w: Worker, segments: set<nat>, now: nat)
    ensures SameRemaining(w.stage, SpawnProve(w, segments, now).stage)
  {
    var i, s1 := FirstWhere(w.stage.proveTasks, ReadyProve(segments)), GetProve(w.stage, segments, now).0;
    if i < |w.stage.proveTasks| {
      AttemptsUpdate(w.stage.proveTasks, i, s1.proveTasks[i]);
    }
  }

  lemma SpawnAggRemaining(w: Worker, now: nat)
    ensures SameRemaining(w.stage, SpawnAgg(w, now).stage)
  {
    var p, s1 := FirstWhere(w.stage.aggTasks, ReadyAgg()), GetAgg(w.stage, now).0;
    if p < |w.stage.aggTasks| {
      CountWhereUpdate(w.stage.aggTasks, p, s1.aggTasks[p], AggNotIn(Success));
    }
  }

  lemma SpawnRemaining(w: Worker, e: Event)
    ensures SameRemaining(w.stage, Spawn(w, e).stage)
  {
    var w1 := SpawnSplit(w, e.splitAt);
    var w2 := SpawnProve(w1, e.segments, e.proveAt);
    var w3 := SpawnAgg(w2, e.aggAt);
    SpawnSplitRemaining(w, e.splitAt);
    SpawnProveRemaining(w1, e.segments, e.proveAt);
    SpawnAggRemaining(w2, e.aggAt);
    SpawnSnarkRemaining(w3, e.snarkAt);
  }

  lemma {:induction false} TakeProveLimit(s: StageState, t: ProveTask, r: Reply, now: nat, answers: nat, job: Job)
    requires ProvesOk(s) && WithinLimit(s, answers, job) && !s.isError
    ensures WithinLimit(
      OnProve(s, ProveReply(t, r), now),
      answers + if s.tasksGenDone && CountedAnswer(s, ProveCall(t), r) then 1 else 0, job)
  {
    var m := ProveReply(t, r);
    ProveAnswerCounts(s, m, now);
    ProveRemainingAtMost(s, m, now);
    OnProvePhase(s, m, now);
  }

  lemma {:induction false} TakeAggLimit(s: StageState, t: AggTask, r: Reply, now: nat, answers: nat, job: Job)
    requires WithinLimit(s, answers, job) && !s.isError
    ensures WithinLimit(
      OnAgg(s, AggReply(t, r), now),
      answers + if s.tasksGenDone && CountedAnswer(s, AggCall(t), r) then 1 else 0, job)
  {
    var m := AggReply(t, r);
    AggAnswerCounts(s, m, now);
    AggRemainingAtMost(s, m, now);
    OnAggPhase(s, m, now);
  }

  lemma {:induction false} ReceiveLimit(w: Worker, delivery: Option<Delivery>, now: nat, answers: nat, job: Job)
    requires ProvesOk(w.stage) && !w.stage.isError && WithinLimit(w.stage, answers, job)
    ensures WithinLimit(Receive(w, delivery, now).stage, answers + AnswerReceived(w, delivery), job)
  {
    if delivery.Some? && delivery.value.call in w.calls {
      var r, s := delivery.value.reply, w.stage;
      match w.calls[delivery.value.call]
      case ProveCall(t) => TakeProveLimit(s, t, r, now, answers, job);
      case AggCall(t) => TakeAggLimit(s, t, r, now, answers, job);
      case SplitCall(t) => assert Remaining(OnSplit(s, SplitReply(t, r), now)) == Remaining(s);
      case SnarkCall(t) => assert Remaining(OnSnark(s, SnarkReply(t, r), now)) == Remaining(s);
    }
  }

  lemma {:induction false} ProveRemainingAtMost(s: StageState, m: ProveTask, now: nat)
    ensures Remaining(OnProve(s, m, now)) <= Remaining(s)
  {
    var i := FirstWhere(s.proveTasks, RunningProve(m.taskId));
    ClearAggCount(s.aggTasks, m.taskId);
    if i < |s.proveTasks| && Accepted(m.state) {
      AttemptsUpdate(s.proveTasks, i, Answered(s.proveTasks[i], m, now));
    }
  }

  lemma {:induction false} AggRemainingAtMost(s: StageState, m: AggTask, now: nat)
    ensures Remaining(OnAgg(s, m, now)) <= Remaining(s)
  {
    var p := FirstWhere(s.aggTasks, RunningAgg(m.taskId));
    var s1 := AcceptAgg(s, m, now);
    ClearAggCount(s1.aggTasks, m.taskId);
    if p < |s.aggTasks| && Accepted(m.state) {
      CountWhereUpdate(s.aggTasks, p, s1.aggTasks[p], AggNotIn(Success));
    }
  }

  lemma {:induction false} FinishLimit(w: Worker, e: Event, answers: nat, job: Job)
    requires Core(w.stage, w.calls, w.nextCall, job) && ListingFits(job, e.listing)
    requires WithinLimit(w.stage, answers, job)
    ensures WithinLimit(Finish(w, e).stage, answers, job)
  {
    FinishInv(w, e, job);
    var s1 := Finish(w, e).stage;
    if s1 != w.stage && w.stage.step == Prove {
      DispatchPhase(w.stage, e.segmentsTxt, e.listing);
      if w.stage.tasksGenDone {
        assert Prepared(w.stage, e.segmentsTxt, e.listing) == w.stage;
      } else if s1.tasksGenDone {
        BuiltLimit(s1, job);
      }
    }
  }

  /** In every run at most 4n + |Plan(n)| decisive answers arrive after the build, n being
      the number of leaves, and one more if the run ends in error. */
  lemma {:induction false} AnswersBounded(h: History, k: nat)
    requires IsRun(h) && k <= |h.events|
    ensures WithinLimit(h.states[k].stage, Answers(h.events, h.states, k), h.job)
  {
    assert Follows(h, k);
    if k > 0 {
      AnswersBounded(h, k - 1);
      StepLimit(h, k, Answers(h.events, h.states, k - 1));
    }
  }

  lemma {:induction false} StepLimit(h: History, k: nat, answers: nat)
    requires IsRun(h) && 0 < k < |h.states| && WithinLimit(h.states[k - 1].stage, answers, h.job)
    ensures WithinLimit(h.states[k].stage, answers + AnswersIn(h.states[k - 1], h.events[k - 1]), h.job)
  {
    var w, e := h.states[k - 1], h.events[k - 1];
    RunInv(h, k - 1);
    assert Follows(h, k);
    if !w.finished {
      var w1 := Spawn(w, e);
      SpawnInv(w, e, h.job);
      SpawnRemaining(w, e);
      ReceiveLimit(w1, e.delivery, e.receiveAt, answers, h.job);
      ReceiveCore(w1, e, h.job);
      FinishLimit(Receive(w1, e.delivery, e.receiveAt), e, answers + AnswersIn(w, e), h.job);
    }
  }

  /** The bound in closed form. */
  lemma {:induction false} AtMostSixPerLeaf(h: History, k: nat)
    requires IsRun(h) && k <= |h.events| && JobLeaves(h.job) != []
    ensures var n := |JobLeaves(h.job)|;
      Answers(h.events, h.states, k) <= 6 * n + CeilLog2(n) - if h.states[k].stage.isError then 0 else 1
  {
    AnswersBounded(h, k);
    PlanSize(|JobLeaves(h.job)|);
  }
}
