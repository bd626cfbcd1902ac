/** A run from Init that ends up waiting for ever, for each request for which there is one, and
    why there is none for the others.  In the run, the directory holds a segment file that is
    not the job's; its prove task is cut off the list while a call for it is still under way,
    and that call fills the quota just before the snark call checks it. */
module QuotaWitness {
  import opened Tasks
  import opened ProverReplies
  import opened AggPlan
  import opened StageSpec
  import opened StageInvariant
  import opened StageBuild
  import opened StageSteps
  import opened StageProgress
  import opened WorkerSpec
  import opened WorkerInvariant
  import opened WorkerSchedules
  import opened QuotaSpec
  import opened QuotaInvariant
  import opened QuotaResults
  import opened QuotaClean
  import opened QuotaSchedules

  // The files that are found: the job's segment, and a stray.
  const BOTH := {0, 1}

  /** The requests that can hang. */
  predicate Hangable(gen: GenerateTask) {
    && gen.fromStep == Init && gen.targetStep == StageSpec.Snark
    && !gen.compositeProof && gen.maxProverNum >= 1
  }

  // Segment 0 is proved; the stray fails, and is skipped n times on the node it failed on.

  ghost predicate Skipped(s: System, n: nat) {
    && Steady(s) && s.skips == n
    && s.worker.stage.proveTasks[0].state == Success
    && Ready(s.worker.stage.proveTasks[1].state) && s.worker.stage.proveTasks[1].trace.nodeInfo == "n"
  }

  /** Segment 0 is proved, and the stray not tried yet. */
  ghost predicate OneProved(s: System) {
    && Steady(s) && s.skips == 0
    && s.worker.stage.proveTasks[0].state == Success
    && s.worker.stage.proveTasks[1].state == Unprocessed && s.worker.stage.proveTasks[1].failureCount == 0
    && s.worker.stage.proveTasks[1].trace == NO_TRACE
  }

  lemma {:induction false} FirstProof(gen: GenerateTask)
    requires Hangable(gen)
    ensures exists s :: Reached(BOTH, gen, s) && OneProved(s)
  {
    var s := FirstSteady(gen);
    FirstTurn(BOTH, gen);
    ListedRests(gen);
    Attempt(BOTH, gen, s, 0, "n", DONE, false);
    assert OneProved(Gone(s, 0, DONE, false));
  }

  lemma {:induction false} FirstFailure(gen: GenerateTask)
    requires Hangable(gen)
    ensures exists s :: Reached(BOTH, gen, s) && Skipped(s, 0)
  {
    FirstProof(gen);
    var s :| Reached(BOTH, gen, s) && OneProved(s);
    Attempt(BOTH, gen, s, 1, "n", FAILED, false);
    assert Skipped(Gone(s, 1, FAILED, false), 0);
  }

  lemma {:induction false} SkipsReached(gen: GenerateTask, n: nat)
    requires Hangable(gen) && n < gen.maxProverNum
    ensures exists s :: Reached(BOTH, gen, s) && Skipped(s, n)
  {
    if n == 0 {
      FirstFailure(gen);
    } else {
      SkipsReached(gen, n - 1);
      var s :| Reached(BOTH, gen, s) && Skipped(s, n - 1);
      Attempt(BOTH, gen, s, 1, "n", Refused, true);
      assert Skipped(Gone(s, 1, Refused, true), n);
    }
  }

  // The build

  /** A call that is not about a prove task is admitted and answered. */
  lemma {:induction false} Served(gen: GenerateTask, s: System, c: CallId)
    requires Reached(BOTH, gen, s) && InPhase(s, c) && s.phases[c].Waiting? && s.count < gen.maxProverNum
    requires !s.worker.calls[c].ProveCall?
    ensures Reached(BOTH, gen, s.(phases := s.phases[c := Over(DONE)]))
  {
    CheckReached(BOTH, gen, s, c, FirstCheck(c), Looking);
    var s1 := s.(phases := s.phases[c := Looking], count := s.count + One(Looking.Counted?));
    CheckReached(BOTH, gen, s1, c, SecondCheck(c, "n"), Counted("n"));
    var s2 := s1.(phases := s1.phases[c := Counted("n")], count := s1.count + One(Counted("n").Counted?));
    ReachedNext(BOTH, gen, s2, Respond(c, DONE));
    assert s2.phases[c := Over(DONE)] == s.phases[c := Over(DONE)];
    assert Next(s2, Respond(c, DONE)) == s.(phases := s.phases[c := Over(DONE)]);
  }

  /** The split has come back, and the stray is out again. */
  function Divided(s: System): StageState
    requires |s.worker.stage.proveTasks| == PREALLOCATED
  {
    OnSplit(Marked(s.worker.stage, 1), SplitReply(s.worker.stage.splitTask, DONE), 0)
  }

  function BuiltStage(s: System): StageState
    requires |s.worker.stage.proveTasks| == PREALLOCATED
  {
    GenTasks(Divided(s), [])
  }

  /** The stage with one segment, proved, and one aggregation to do. */
  ghost predicate OneLeft(s: StageState) {
    && s.step == Prove && Built(s) && !s.isError && s.splitTask.state == Success && s.snarkTask.state == Initial
    && TasksOk(s) && AllProved(s) && s.gen.targetStep == StageSpec.Snark && s.gen.maxProverNum >= 1
    && |s.aggTasks| == 1 && s.aggTasks[0].state == Unprocessed
  }

  lemma {:induction false} DividedOk(gen: GenerateTask, s: System, n: nat)
    requires Hangable(gen) && Reached(BOTH, gen, s) && Skipped(s, n)
    ensures TasksOk(Divided(s)) && Divided(s).splitTask.state == Success && Divided(s).splitTask.totalSegments == 1
    ensures Divided(s) == Marked(s.worker.stage, 1).(splitTask := Divided(s).splitTask)
  {
    OutReached(BOTH, gen, s, 1);
    ReachedOk(BOTH, gen, Out(s, 1));
    assert TasksOk(Marked(s.worker.stage, 1));
  }

  lemma {:induction false} BuiltIs(gen: GenerateTask, s: System, n: nat)
    requires Hangable(gen) && Reached(BOTH, gen, s) && Skipped(s, n)
    ensures OneLeft(BuiltStage(s)) && BuiltStage(s).proveTasks == [s.worker.stage.proveTasks[0]]
  {
    var d := Divided(s);
    DividedOk(gen, s, n);
    ReachedLimit(BOTH, gen, s);
    GenTasksPhase(d, []);
    GenTasksKeeps(d, []);
    GenTasksFresh(d, []);
    GenTasksList(d, []);
    PlanSize(1);
  }

  /** The turn that receives the split builds the tree, with the stray's call outstanding. */
  function BuiltWorker(s: System): Worker
    requires |s.worker.stage.proveTasks| == PREALLOCATED
  {
    var w, t := Busied(s.worker, 1), SplitReply(s.worker.stage.splitTask, DONE);
    w.(stage := BuiltStage(s), calls := map[s.worker.nextCall := w.calls[s.worker.nextCall]],
       saved := Save([], t.state, t.trace, 0))
  }

  /** The state in which the tree is built. */
  predicate BuildsNow(s: StageState) {
    && s.step == Prove && s.splitTask.state == Success && !s.tasksGenDone && s.gen.targetStep == StageSpec.Snark
    && s.proveTasks != [] && s.snarkTask.state == Initial && !s.isError
  }

  lemma {:induction false} DispatchBuilds(s: StageState)
    requires BuildsNow(s) && OneLeft(GenTasks(s, []))
    ensures Dispatch(s, None, []) == GenTasks(s, [])
  {
    assert GenProve(s, None) == s;
  }

  lemma {:induction false} DividedBuilds(gen: GenerateTask, s: System, n: nat)
    requires Hangable(gen) && Reached(BOTH, gen, s) && Skipped(s, n)
    ensures BuildsNow(Divided(s))
  {
    DividedOk(gen, s, n);
    ReachedLimit(BOTH, gen, s);
  }

  lemma {:induction false} BuiltDispatch(gen: GenerateTask, s: System, n: nat)
    requires Hangable(gen) && Reached(BOTH, gen, s) && Skipped(s, n)
    ensures Dispatch(Divided(s), None, []) == BuiltStage(s)
    ensures !IsSuccess(Divided(s)) && !Divided(s).isError
  {
    BuiltIs(gen, s, n);
    DividedBuilds(gen, s, n);
    DispatchBuilds(Divided(s));
  }

  lemma SplitReceived(w: Worker, t: SplitTask)
    requires 0 in w.calls && w.calls[0] == SplitCall(t) && w.now == 0
    ensures var m := SplitReply(t, DONE);
      Receive(w, Some(Delivery(0, DONE)), 0)
        == w.(calls := w.calls - {0}, stage := OnSplit(w.stage, m, 0), saved := Save(w.saved, m.state, m.trace, 0))
  {
  }

  lemma StrayKept(s: System)
    requires Steady(s)
    ensures Busied(s.worker, 1).calls - {0} == BuiltWorker(s).calls
  {
  }

  lemma {:induction false} BuildIterate(gen: GenerateTask, s: System, n: nat)
    requires Hangable(gen) && Reached(BOTH, gen, s) && Skipped(s, n)
    ensures Iterate(s.worker, Delivers({1}, 0, DONE)) == BuiltWorker(s)
  {
    var w, e := Busied(s.worker, 1), Delivers({1}, 0, DONE);
    ReachedLimit(BOTH, gen, s);
    SpawnOne(s.worker, 1);
    SpawnSame(s.worker, Found({1}), e);
    StrayKept(s);
    SplitReceived(w, s.worker.stage.splitTask);
    BuiltDispatch(gen, s, n);
  }

  function BuiltSystem(s: System): System
    requires |s.worker.stage.proveTasks| == PREALLOCATED
  {
    System(BuiltWorker(s), map[s.worker.nextCall := Waiting], s.count, s.skips, None)
  }

  function SplitBack(s: System): System
    requires |s.worker.stage.proveTasks| == PREALLOCATED
  {
    Out(s, 1).(phases := map[0 := Over(DONE), s.worker.nextCall := Waiting])
  }

  lemma {:induction false} SplitServed(gen: GenerateTask, s: System, n: nat)
    requires Hangable(gen) && Reached(BOTH, gen, s) && Skipped(s, n) && n < gen.maxProverNum
    ensures Reached(BOTH, gen, SplitBack(s))
  {
    OutReached(BOTH, gen, s, 1);
    Served(gen, Out(s, 1), 0);
    assert Out(s, 1).phases[0 := Over(DONE)] == SplitBack(s).phases;
  }

  lemma {:induction false} BuildLeaves(gen: GenerateTask, s: System, w: Worker)
    requires Steady(s) && Reached(BOTH, gen, SplitBack(s))
    requires Iterate(s.worker, Delivers({1}, 0, DONE)) == w && w.calls.Keys == {s.worker.nextCall}
    ensures Reached(BOTH, gen, System(w, map[s.worker.nextCall := Waiting], s.count, s.skips, None))
  {
    OneCallLeft(BOTH, gen, SplitBack(s), {1}, 0, DONE, w, s.worker.nextCall);
  }

  lemma {:induction false} BuildReached(gen: GenerateTask, s: System, n: nat)
    requires Hangable(gen) && Reached(BOTH, gen, s) && Skipped(s, n) && n < gen.maxProverNum
    ensures Reached(BOTH, gen, BuiltSystem(s))
  {
    SplitServed(gen, s, n);
    BuildIterate(gen, s, n);
    BuildLeaves(gen, s, BuiltWorker(s));
  }

  // The aggregation

  /** One aggregation to do, and the stray's call c, which has not begun. */
  ghost predicate Last(s: System, c: CallId) {
    && s.half.None? && s.phases == map[c := Waiting] && s.worker.calls.Keys == {c} && s.worker.calls[c].ProveCall?
    && s.worker.nextCall > c && s.worker.now == 0 && !s.worker.finished && OneLeft(s.worker.stage)
  }

  function AggStarted(s: StageState): StageState
    requires |s.aggTasks| == 1
  {
    s.(aggTasks := [s.aggTasks[0].(state := Processing, trace := Started(s.aggTasks[0].trace, 0))])
  }

  function AggOut(w: Worker): Worker
    requires |w.stage.aggTasks| == 1
  {
    var t := AggStarted(w.stage).aggTasks[0];
    w.(stage := AggStarted(w.stage), nextCall := w.nextCall + 1,
       calls := w.calls[w.nextCall := AggCall(t.(inputs := FilledInputs(w.stage, t.inputs)))])
  }

  lemma {:induction false} SpawnLast(w: Worker)
    requires OneLeft(w.stage) && w.now == 0
    ensures Spawn(w, IDLE) == AggOut(w)
  {
    NoAggDeadlock(w.stage);
    CountWhereNone(w.stage.proveTasks, ProveNotIn(Success));
    FirstWhereIs(w.stage.proveTasks, ReadyProve({}), |w.stage.proveTasks|);
    FirstWhereIs(w.stage.aggTasks, ReadyAgg(), 0);
    assert SpawnSplit(w, 0) == w;
    assert SpawnProve(w, {}, 0) == w;
    assert SpawnAgg(w, 0) == AggOut(w);
  }

  /** The stage once the aggregation is done, and before and after dispatch. */
  function AggDone(s: StageState): StageState
    requires |s.aggTasks| == 1
  {
    var t := AggStarted(s).aggTasks[0];
    OnAgg(AggStarted(s), AggReply(t.(inputs := FilledInputs(s, t.inputs)), DONE), 0)
  }

  lemma {:induction false} AggDoneIs(s: StageState)
    requires OneLeft(s)
    ensures AggDone(s) == s.(aggTasks := AggDone(s).aggTasks) && AllAggregated(AggDone(s))
  {
    var s1 := AggStarted(s);
    var t := s1.aggTasks[0];
    var m := AggReply(t.(inputs := FilledInputs(s, t.inputs)), DONE);
    FirstWhereIs(s1.aggTasks, RunningAgg(m.taskId), 0);
    ClearAggKeeps(AcceptAgg(s1, m, 0).aggTasks, m.taskId);
  }

  lemma {:induction false} AggDispatch(s: StageState)
    requires OneLeft(s)
    ensures Dispatch(AggDone(s), None, []) == GenSnark(AggDone(s)).(step := StageSpec.Snark)
    ensures !IsSuccess(AggDone(s)) && !AggDone(s).isError
  {
    AggDoneIs(s);
    assert AllProved(AggDone(s));
  }

  function SnarkWorker(w: Worker): Worker
    requires |w.stage.aggTasks| == 1
  {
    w.(stage := GenSnark(AggDone(w.stage)).(step := StageSpec.Snark), nextCall := w.nextCall + 1)
  }

  lemma {:induction false} AggIterate(w: Worker)
    requires OneLeft(w.stage) && w.now == 0 && !w.finished && w.nextCall !in w.calls
    ensures Iterate(w, Delivers({}, w.nextCall, DONE)) == SnarkWorker(w)
  {
    var w1, e := AggOut(w), Delivers({}, w.nextCall, DONE);
    SpawnLast(w);
    SpawnSame(w, IDLE, e);
    AggDispatch(w.stage);
    assert w1.calls - {w.nextCall} == w.calls;
    assert Receive(w1, e.delivery, 0) == w.(stage := AggDone(w.stage), nextCall := w.nextCall + 1);
  }

  function AggOutSystem(s: System, c: CallId, p: Phase, q: Phase, count: nat): System
    requires |s.worker.stage.aggTasks| == 1
  {
    System(AggOut(s.worker), map[c := p, s.worker.nextCall := q], count, s.skips, Some(Half(s.worker, IDLE)))
  }

  lemma AggOutPhases(s: System, c: CallId)
    requires Last(s, c)
    ensures PhasesOf(s.phases, AggOut(s.worker).calls) == map[c := Waiting, s.worker.nextCall := Waiting]
  {
  }

  lemma {:induction false} AggOutReached(gen: GenerateTask, s: System, c: CallId)
    requires Reached(BOTH, gen, s) && Last(s, c)
    ensures Reached(BOTH, gen, AggOutSystem(s, c, Waiting, Waiting, s.count))
  {
    var phases: map<CallId, Phase> := map[c := Waiting, s.worker.nextCall := Waiting];
    SpawnLast(s.worker);
    AggOutPhases(s, c);
    HandOutReached(BOTH, gen, s, {}, AggOut(s.worker), phases);
  }

  /** While the aggregation comes back, the stray fills the quota. */
  lemma {:induction false} StrayFills(gen: GenerateTask, s: System, c: CallId)
    requires Reached(BOTH, gen, s) && Last(s, c) && s.count + 1 == gen.maxProverNum
    ensures Reached(BOTH, gen, AggOutSystem(s, c, Counted("s"), Over(DONE), s.count + 1))
  {
    var s1, s2 := AggOutSystem(s, c, Waiting, Waiting, s.count), AggOutSystem(s, c, Waiting, Over(DONE), s.count);
    var s3 := AggOutSystem(s, c, Looking, Over(DONE), s.count);
    AggOutReached(gen, s, c);
    Served(gen, s1, s.worker.nextCall);
    assert s1.phases[s.worker.nextCall := Over(DONE)] == s2.phases;
    CheckReached(BOTH, gen, s2, c, FirstCheck(c), Looking);
    assert s2.phases[c := Looking] == s3.phases;
    CheckReached(BOTH, gen, s3, c, SecondCheck(c, "s"), Counted("s"));
    assert s3.phases[c := Counted("s")] == AggOutSystem(s, c, Counted("s"), Over(DONE), s.count + 1).phases;
  }

  /** The turn in which the aggregation is back. */
  function LastTurn(w: Worker): Worker {
    Iterate(w, Delivers({}, w.nextCall, DONE))
  }

  /** The snark task is ready, and the stray's call c still outstanding. */
  ghost predicate AtSnark(w: Worker, c: CallId) {
    && w.stage.step == StageSpec.Snark && Ready(w.stage.snarkTask.state) && !w.finished && w.now == 0
    && w.calls.Keys == {c} && w.calls[c].ProveCall? && c < w.nextCall
  }

  lemma {:induction false} LastTurnIs(s: System, c: CallId)
    requires Last(s, c)
    ensures AtSnark(LastTurn(s.worker), c) && LastTurn(s.worker).calls == s.worker.calls
  {
    AggIterate(s.worker);
    AggDoneIs(s.worker.stage);
  }

  /** Step Snark, with the quota filled by skips and by the stray's call. */
  ghost predicate Full(gen: GenerateTask, s: System, c: CallId) {
    && Reached(BOTH, gen, s) && s.half.None? && AtSnark(s.worker, c) && s.phases.Keys == {c} && s.count == gen.maxProverNum
  }

  lemma {:induction false} StrayLeft(gen: GenerateTask, s: System, c: CallId, w: Worker)
    requires |s.worker.stage.aggTasks| == 1 && s.worker.now == 0 && c < s.worker.nextCall
    requires Reached(BOTH, gen, AggOutSystem(s, c, Counted("s"), Over(DONE), s.count + 1))
    requires LastTurn(s.worker) == w && w.calls.Keys == {c}
    ensures Reached(BOTH, gen, System(w, map[c := Counted("s")], s.count + 1, s.skips, None))
  {
    var s1 := AggOutSystem(s, c, Counted("s"), Over(DONE), s.count + 1);
    OneCallLeft(BOTH, gen, s1, {}, s.worker.nextCall, DONE, w, c);
  }

  lemma {:induction false} SnarkReached(gen: GenerateTask, s: System, c: CallId)
    requires Reached(BOTH, gen, s) && Last(s, c) && s.count + 1 == gen.maxProverNum
    ensures Full(gen, System(LastTurn(s.worker), map[c := Counted("s")], s.count + 1, s.skips, None), c)
  {
    StrayFills(gen, s, c);
    LastTurnIs(s, c);
    StrayLeft(gen, s, c, LastTurn(s.worker));
  }

  // The snark call

  lemma {:induction false} SnarkHandOut(gen: GenerateTask, s: System, c: CallId)
    requires Full(gen, s, c)
    ensures exists s1 :: Reached(BOTH, gen, s1) && Doomed(s1)
  {
    var f, s1 := s.worker.nextCall, Next(s, HandOut(IDLE));
    EventsOk({}, 0, Refused);
    SpawnInSnark(s.worker, IDLE);
    ReachedNext(BOTH, gen, s, HandOut(IDLE));
    ReachedLimit(BOTH, gen, s1);
    ReachedNext(BOTH, gen, s1, FirstCheck(f));
    assert Doomed(Next(s1, FirstCheck(f)));
  }

  lemma {:induction false} BuiltLast(s: System)
    requires Steady(s) && OneLeft(BuiltStage(s))
    ensures Last(BuiltSystem(s), s.worker.nextCall) && BuiltSystem(s).count == s.skips
  {
  }

  lemma {:induction false} LastReached(gen: GenerateTask)
    requires Hangable(gen)
    ensures exists s, c :: Reached(BOTH, gen, s) && Last(s, c) && s.count + 1 == gen.maxProverNum
  {
    var n := gen.maxProverNum - 1;
    SkipsReached(gen, n);
    var s :| Reached(BOTH, gen, s) && Skipped(s, n);
    BuiltIs(gen, s, n);
    BuildReached(gen, s, n);
    BuiltLast(s);
  }

  lemma {:induction false} HangReached(gen: GenerateTask)
    requires Hangable(gen)
    ensures exists s :: Reached(BOTH, gen, s) && Doomed(s)
  {
    LastReached(gen);
    var s, c :| Reached(BOTH, gen, s) && Last(s, c) && s.count + 1 == gen.maxProverNum;
    SnarkReached(gen, s, c);
    SnarkHandOut(gen, System(LastTurn(s.worker), map[c := Counted("s")], s.count + 1, s.skips, None), c);
  }

  // Requests that cannot hang

  lemma {:induction false} DoomedMeans(q: QuotaRun, k: nat)
    requires IsQuotaRun(q) && k < |q.states| && q.gen.fromStep == Init && Doomed(q.states[k])
    ensures Hangable(q.gen)
  {
    QuotaInv(q, k);
    QuotaGen(q, k);
    if q.gen.maxProverNum == 0 {
      NoQuotaStarves(q, k);
    }
  }

  /** A request that starts at Init can hang exactly if it is to end in a snark proof and has
      a quota: without one, it does not even get its split. */
  lemma {:induction false} InitCanHangIff(gen: GenerateTask)
    requires RequestOk(gen) && gen.fromStep == Init
    ensures CanHang(gen) <==> gen.targetStep == StageSpec.Snark && !gen.compositeProof && gen.maxProverNum >= 1
  {
    if Hangable(gen) {
      HangReached(gen);
      var s :| Reached(BOTH, gen, s) && Doomed(s);
      var q :| RunTo(q, BOTH, gen, s);
      assert DoomedAt(q, |q.moves|, gen);
    }
    if CanHang(gen) {
      var q, k :| DoomedAt(q, k, gen);
      DoomedMeans(q, k);
    }
  }
}
