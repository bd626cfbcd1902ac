/** The event loop of a stage (stage/stage_worker.rs, run_stage_task), on values.
    One iteration hands out tasks, receives at most one finished call, and dispatches. */
module WorkerSpec {
  import opened DeferredFiles
  import opened Tasks
  import opened ProverReplies
  import opened StageSpec

  datatype Task =
    | SplitCall(split: SplitTask)
    | ProveCall(prove: ProveTask)
    | AggCall(agg: AggTask)
    | SnarkCall(snark: SnarkTask)

  type CallId = nat

  datatype Delivery = Delivery(call: CallId, reply: Reply)

  // What the environment contributes to one iteration: the clock readings, the segment
  // files present, the finished call the loop receives (if any), and the file system
  // as dispatch sees it.
  datatype Event = Event(
    splitAt: nat, proveAt: nat, aggAt: nat, snarkAt: nat, receiveAt: nat,
    segments: set<nat>, delivery: Option<Delivery>, segmentsTxt: Option<nat>, listing: seq<DirEntry>)

  // calls holds the spawned calls whose result has not been received; saved holds the
  // traces of the tasks written to the database.
  datatype Worker = Worker(
    stage: StageState, calls: map<CallId, Task>, nextCall: CallId, now: nat, saved: seq<Trace>, finished: bool)

  function Start(gen: GenerateTask): Worker {
    Worker(Dispatch(NewStage(gen), None, []), map[], 0, 0, [], false)
  }

  function Spawned(w: Worker, stage: StageState, call: Option<Task>, now: nat): Worker {
    if call.None? then w.(stage := stage, now := now)
    else w.(stage := stage, now := now, calls := w.calls[w.nextCall := call.value], nextCall := w.nextCall + 1)
  }

  function SpawnSplit(w: Worker, now: nat): Worker {
    if w.stage.step != Prove then w
    else
      var (stage, task) := GetSplit(w.stage, now);
      Spawned(w, stage, if task.Some? then Some(SplitCall(task.value)) else None, now)
  }

  function CountProcessing(s: StageState): nat {
    CountWhere(s.proveTasks, ProveIn(Processing))
  }

  function CountUnfinished(s: StageState): nat {
    CountWhere(s.proveTasks, ProveNotIn(Success))
  }

  function SpawnProve(w: Worker, segments: set<nat>, now: nat): Worker {
    if w.stage.step != Prove || CountProcessing(w.stage) >= w.stage.gen.maxProverNum then w
    else
      var (stage, task) := GetProve(w.stage, segments, now);
      Spawned(w, stage, if task.Some? then Some(ProveCall(task.value)) else None, now)
  }

  function SpawnAgg(w: Worker, now: nat): Worker {
    if w.stage.step != Prove || !w.stage.tasksGenDone || CountUnfinished(w.stage) >= w.stage.gen.maxProverNum then w
    else
      var (stage, task) := GetAgg(w.stage, now);
      Spawned(w, stage, if task.Some? then Some(AggCall(task.value)) else None, now)
  }

  function SpawnSnark(w: Worker, now: nat): Worker {
    if w.stage.step != Snark then w
    else
      var (stage, task) := GetSnark(w.stage, now);
      Spawned(w, stage, if task.Some? then Some(SnarkCall(task.value)) else None, now)
  }

  function Spawn(w: Worker, e: Event): Worker {
    SpawnSnark(SpawnAgg(SpawnProve(SpawnSplit(w, e.splitAt), e.segments, e.proveAt), e.aggAt), e.snarkAt)
  }

  function Save(saved: seq<Trace>, state: TaskState, t: Trace, now: nat): seq<Trace> {
    if Decisive(state) then saved + [Stamped(t, state, now)] else saved
  }

  /** The stage takes the result of one of its calls. */
  function Take(w: Worker, call: Task, reply: Reply, now: nat): Worker {
    match call
    case SplitCall(t) =>
      var m := SplitReply(t, reply);
      w.(stage := OnSplit(w.stage, m, now), saved := Save(w.saved, m.state, m.trace, now), now := now)
    case ProveCall(t) => w.(stage := OnProve(w.stage, ProveReply(t, reply), now), now := now)
    case AggCall(t) => w.(stage := OnAgg(w.stage, AggReply(t, reply), now), now := now)
    case SnarkCall(t) =>
      var m := SnarkReply(t, reply);
      w.(stage := OnSnark(w.stage, m, now), saved := Save(w.saved, m.state, m.trace, now), now := now)
  }

  function Receive(w: Worker, delivery: Option<Delivery>, now: nat): Worker {
    if delivery.None? || delivery.value.call !in w.calls then w
    else
      var c := delivery.value.call;
      Take(w.(calls := w.calls - {c}), w.calls[c], delivery.value.reply, now)
  }

  function Finish(w: Worker, e: Event): Worker {
    if IsSuccess(w.stage) || w.stage.isError then w.(finished := true)
    else w.(stage := Dispatch(w.stage, e.segmentsTxt, e.listing))
  }

  function Iterate(w: Worker, e: Event): Worker {
    if w.finished then w else Finish(Receive(Spawn(w, e), e.delivery, e.receiveAt), e)
  }
}
