/** Concrete turns of the event loop: how the loop starts, hands out one prove task, and takes
    its answer back, while the split is under way.  Runs that show something to be possible
    are made of them. */
module WorkerSchedules {
  import opened Receipts
  import opened DeferredFiles
  import opened Tasks
  import opened ProverReplies
  import opened StageSpec
  import opened StageInvariant
  import opened WorkerSpec
  import opened WorkerInvariant

  // A job of one segment, which is file 0.
  const JOB := Job(1, 0)

  // An event in which nothing happens.
  const IDLE := Event(0, 0, 0, 0, 0, {}, None, None, [])

  function Found(segments: set<nat>): Event {
    IDLE.(segments := segments)
  }

  function Delivers(segments: set<nat>, c: CallId, r: Reply): Event {
    Found(segments).(delivery := Some(Delivery(c, r)))
  }

  const DONE := Answer(Ok, "n", EMPTY, 0, 1)
  const FAILED := Answer(InternalError, "n", EMPTY, 0, 0)

  lemma {:induction false} EventsOk(segments: set<nat>, c: CallId, r: Reply)
    requires r.Answer? && r.code.Ok? ==> r.totalSegments == 1
    ensures EventOk(JOB, 0, Found(segments)) && EventOk(JOB, 0, Delivers(segments, c, r))
  {
    assert Produced(DeferredInputs(0)) == [];
  }

  lemma SpawnFound(w: Worker, segments: set<nat>, c: CallId, r: Reply)
    ensures Spawn(w, Delivers(segments, c, r)) == Spawn(w, Found(segments))
  {
  }

  /** The requests that prove segments. */
  predicate Proves(gen: GenerateTask) {
    RequestOk(gen) && gen.fromStep == Init && gen.targetStep != Split && gen.maxProverNum >= 1
  }

  /** The split is under way, and no prove task is. */
  ghost predicate Resting(s: StageState) {
    && s.step == Prove && !s.tasksGenDone && !s.isError && s.aggTasks == [] && s.snarkTask.state == Initial
    && s.splitTask.state == Processing && |s.proveTasks| == PREALLOCATED
    && forall i :: 0 <= i < PREALLOCATED ==>
         && !s.proveTasks[i].isDeferred && s.proveTasks[i].fileNo == i
         && (Ready(s.proveTasks[i].state) || s.proveTasks[i].state == Success)
  }

  /** The stage once the split task is handed out, and then once the list is there. */
  function Splitting(gen: GenerateTask): StageState {
    Spawn(Start(gen), IDLE).stage
  }

  function Listed(gen: GenerateTask): StageState {
    ExtendTo(Splitting(gen), PREALLOCATED)
  }

  function FirstWorker(gen: GenerateTask): Worker {
    Worker(Listed(gen), map[0 := SplitCall(Listed(gen).splitTask)], 1, 0, [], false)
  }

  lemma {:induction false} StartSpawns(gen: GenerateTask)
    requires Proves(gen)
    ensures var s := Splitting(gen);
      && Spawn(Start(gen), IDLE) == Worker(s, map[0 := SplitCall(s.splitTask)], 1, 0, [], false)
      && s == NewStage(gen).(step := Prove, splitTask := s.splitTask, nextId := 2)
      && s.splitTask.state == Processing
  {
    assert SpawnSplit(Start(gen), 0).calls == map[0 := SplitCall(SpawnSplit(Start(gen), 0).stage.splitTask)];
  }

  lemma {:induction false} ListedRests(gen: GenerateTask)
    requires Proves(gen)
    ensures Resting(Listed(gen)) && forall i :: 0 <= i < PREALLOCATED ==> Listed(gen).proveTasks[i].trace == NO_TRACE
  {
    StartSpawns(gen);
  }

  lemma {:induction false} FinishLists(gen: GenerateTask)
    requires Proves(gen)
    ensures Iterate(Start(gen), IDLE) == FirstWorker(gen)
  {
    StartSpawns(gen);
    var w := Spawn(Start(gen), IDLE);
    assert Finish(w, IDLE) == w.(stage := Dispatch(w.stage, None, []));
    assert GenProve(w.stage, None) == Listed(gen);
  }

  /** Prove task x handed out. */
  function Marked(s: StageState, x: nat): StageState
    requires x < |s.proveTasks|
  {
    var t := s.proveTasks[x];
    s.(proveTasks := s.proveTasks[x := t.(state := Processing, trace := Started(t.trace, 0))])
  }

  /** Prove task x given back with reply r. */
  function Tried(s: StageState, x: nat, r: Reply): StageState
    requires x < |s.proveTasks|
  {
    var t := Marked(s, x).proveTasks[x];
    s.(proveTasks := s.proveTasks[x := Answered(t, ProveReply(t, r), 0)])
  }

  function Busied(w: Worker, x: nat): Worker
    requires x < |w.stage.proveTasks|
  {
    var s := Marked(w.stage, x);
    w.(stage := s, calls := w.calls[w.nextCall := ProveCall(s.proveTasks[x])], nextCall := w.nextCall + 1)
  }

  lemma {:induction false} SpawnOne(w: Worker, x: nat)
    requires Resting(w.stage) && w.now == 0 && w.stage.gen.maxProverNum >= 1
    requires x < PREALLOCATED && Ready(w.stage.proveTasks[x].state)
    ensures Spawn(w, Found({x})) == Busied(w, x)
  {
    CountWhereNone(w.stage.proveTasks, ProveIn(Processing));
    FirstWhereIs(w.stage.proveTasks, ReadyProve({x}), x);
  }

  lemma {:induction false} TriedRests(s: StageState, x: nat, r: Reply)
    requires Resting(s) && x < PREALLOCATED && Ready(s.proveTasks[x].state)
    requires Accepted(ProveReply(s.proveTasks[x], r).state)
    requires ProveReply(s.proveTasks[x], r).state == Failed ==> s.proveTasks[x].failureCount < MAX_FAILURES
    ensures Resting(Tried(s, x, r))
  {
  }

  /** The loop receives the reply, and dispatch finds nothing to do. */
  lemma {:induction false} TriedStage(s: StageState, x: nat, r: Reply)
    requires Resting(s) && IdsOk(s) && x < PREALLOCATED && Ready(s.proveTasks[x].state)
    requires Accepted(ProveReply(s.proveTasks[x], r).state)
    requires ProveReply(s.proveTasks[x], r).state == Failed ==> s.proveTasks[x].failureCount < MAX_FAILURES
    ensures var s1 := Marked(s, x); OnProve(s1, ProveReply(s1.proveTasks[x], r), 0) == Tried(s, x, r)
  {
    var s1 := Marked(s, x);
    FirstWhereIs(s1.proveTasks, RunningProve(s1.proveTasks[x].taskId), x);
    assert s1.proveTasks[x := Tried(s, x, r).proveTasks[x]] == Tried(s, x, r).proveTasks;
  }

  lemma RestingDispatch(s: StageState)
    requires Resting(s)
    ensures Dispatch(s, None, []) == s && !IsSuccess(s)
  {
  }

  lemma {:induction false} TriedReceived(w: Worker, x: nat, r: Reply)
    requires Resting(w.stage) && IdsOk(w.stage) && w.now == 0 && w.nextCall !in w.calls
    requires x < PREALLOCATED && Ready(w.stage.proveTasks[x].state) && Accepted(ProveReply(w.stage.proveTasks[x], r).state)
    requires ProveReply(w.stage.proveTasks[x], r).state == Failed ==> w.stage.proveTasks[x].failureCount < MAX_FAILURES
    ensures Receive(Busied(w, x), Some(Delivery(w.nextCall, r)), 0)
         == w.(stage := Tried(w.stage, x, r), nextCall := w.nextCall + 1)
  {
    TriedStage(w.stage, x, r);
    assert Busied(w, x).calls - {w.nextCall} == w.calls;
  }

  lemma {:induction false} TriedTurn(w: Worker, x: nat, r: Reply)
    requires Resting(w.stage) && IdsOk(w.stage) && w.now == 0 && !w.finished && w.stage.gen.maxProverNum >= 1
    requires x < PREALLOCATED && Ready(w.stage.proveTasks[x].state) && w.nextCall !in w.calls
    requires Accepted(ProveReply(w.stage.proveTasks[x], r).state)
    requires ProveReply(w.stage.proveTasks[x], r).state == Failed ==> w.stage.proveTasks[x].failureCount < MAX_FAILURES
    ensures Iterate(w, Delivers({x}, w.nextCall, r))
         == w.(stage := Tried(w.stage, x, r), nextCall := w.nextCall + 1)
  {
    SpawnOne(w, x);
    SpawnFound(w, {x}, w.nextCall, r);
    TriedReceived(w, x, r);
    TriedRests(w.stage, x, r);
    RestingDispatch(Tried(w.stage, x, r));
  }
}
