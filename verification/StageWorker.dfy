/** The event loop as it is: an object that owns a stage and its outstanding calls
    (stage/stage_worker.rs, run_stage_task).  One Turn is one iteration of the loop. */
module StageWorkerObject {
  import opened Tasks
  import opened ProverReplies
  import opened StageSpec
  import opened StageObject
  import opened StageProgress
  import opened WorkerSpec
  import opened WorkerInvariant

  class StageWorker {
    const stage: Stage
    var calls: map<CallId, Task>
    var nextCall: CallId
    var saved: seq<Trace>
    var finished: bool
    ghost var now: nat

    ghost function View(): Worker
      reads this, stage
    {
      Worker(stage.View(), calls, nextCall, now, saved, finished)
    }

    constructor (gen: GenerateTask)
      requires RequestOk(gen)
      ensures View() == Start(gen) && fresh(stage)
    {
      stage := new Stage(gen);
      calls, nextCall, saved, finished, now := map[], 0, [], false, 0;
      new;
      stage.DispatchStep(None, []);
    }

    method Call(task: Task)
      modifies this
      ensures View() == old(View()).(calls := old(calls)[old(nextCall) := task], nextCall := old(nextCall) + 1)
    {
      calls := calls[nextCall := task];
      nextCall := nextCall + 1;
    }

    method CallSplit(ts: nat)
      modifies this, stage
      ensures View() == SpawnSplit(old(View()), ts)
    {
      if stage.step == Prove {
        var task := stage.GetSplitTask(ts);
        now := ts;
        if task.Some? {
          Call(SplitCall(task.value));
        }
      }
    }

    method CallProve(segments: set<nat>, ts: nat)
      modifies this, stage
      ensures View() == SpawnProve(old(View()), segments, ts)
    {
      if stage.step == Prove {
        var processing := stage.CountProcessingProveTasks();
        if processing < stage.gen.maxProverNum {
          var task := stage.GetProveTask(segments, ts);
          now := ts;
          if task.Some? {
            Call(ProveCall(task.value));
          }
        }
      }
    }

    method CallAgg(ts: nat)
      requires LookupsSucceed(stage.View())
      modifies this, stage
      ensures View() == SpawnAgg(old(View()), ts)
    {
      if stage.step == Prove && stage.isTasksGenDone {
        var unfinished := stage.CountUnfinishedProveTasks();
        if unfinished < stage.gen.maxProverNum {
          var task := stage.GetAggTask(ts);
          now := ts;
          if task.Some? {
            Call(AggCall(task.value));
          }
        }
      }
    }

    method CallSnark(ts: nat)
      modifies this, stage
      ensures View() == SpawnSnark(old(View()), ts)
    {
      if stage.step == StageSpec.Snark {
        var task := stage.GetSnarkTask(ts);
        now := ts;
        if task.Some? {
          Call(SnarkCall(task.value));
        }
      }
    }

    method SaveTask(state: TaskState, trace: Trace)
      modifies this
      ensures View() == old(View()).(saved := old(saved) + if Decisive(state) then [trace] else [])
    {
      if state == Failed || state == Success {
        saved := saved + [trace];
      }
    }

    method TakeResult(call: Task, reply: Reply, ts: nat)
      modifies this, stage
      ensures View() == Take(old(View()), call, reply, ts)
    {
      now := ts;
      match call
      case SplitCall(t) =>
        var data := stage.OnSplitTask(SplitReply(t, reply), ts);
        SaveTask(data.state, data.trace);
      case ProveCall(t) =>
        stage.OnProveTask(ProveReply(t, reply), ts);
      case AggCall(t) =>
        stage.OnAggTask(AggReply(t, reply), ts);
      case SnarkCall(t) =>
        var data := stage.OnSnarkTask(SnarkReply(t, reply), ts);
        SaveTask(data.state, data.trace);
    }

    method ReceiveResult(delivery: Option<Delivery>, ts: nat)
      modifies this, stage
      ensures View() == Receive(old(View()), delivery, ts)
    {
      if delivery.Some? && delivery.value.call in calls {
        var call := calls[delivery.value.call];
        calls := calls - {delivery.value.call};
        TakeResult(call, delivery.value.reply, ts);
      }
    }

    method FinishTurn(e: Event)
      requires !IsSuccess(stage.View()) ==> DispatchSafe(stage.View())
      modifies this, stage
      ensures View() == Finish(old(View()), e)
    {
      if stage.step == End || stage.snarkTask.state == Success || stage.isError {
        finished := true;
      } else {
        stage.DispatchStep(e.segmentsTxt, e.listing);
      }
    }

    method CallAll(e: Event, ghost job: Job)
      requires Inv(View(), job)
      modifies this, stage
      ensures View() == Spawn(old(View()), e)
    {
      ghost var w := View();
      CallSplit(e.splitAt);
      CallProve(e.segments, e.proveAt);
      SpawnSplitInv(w, e.splitAt, job);
      SpawnProveInv(SpawnSplit(w, e.splitAt), e.segments, e.proveAt, job);
      HandedOutComplete(stage.View(), e.aggAt);
      CallAgg(e.aggAt);
      CallSnark(e.snarkAt);
    }

    method Turn(e: Event, ghost job: Job)
      requires Inv(View(), job) && EventOk(job, now, e)
      modifies this, stage
      ensures View() == Iterate(old(View()), e) && Inv(View(), job)
    {
      if finished {
        return;
      }
      ghost var w := View();
      IterateInv(w, e, job);
      CallAll(e, job);
      SpawnInv(w, e, job);
      ReceiveCore(View(), e, job);
      ReceiveResult(e.delivery, e.receiveAt);
      FinishInv(View(), e, job);
      FinishTurn(e);
    }

    method TurnOfRun(ghost h: History, k: nat, e: Event)
      requires IsRun(h) && k < |h.events| && e == h.events[k] && View() == h.states[k]
      modifies this, stage
      ensures View() == h.states[k + 1]
    {
      assert Follows(h, k + 1);
      RunInv(h, k);
      Turn(e, h.job);
    }
  }

  /** Runs the loop against a schedule, along the states of a run; every property of runs
      is one of this method. */
  method RunStageTask(gen: GenerateTask, events: seq<Event>, ghost h: History) returns (w: StageWorker)
    requires IsRun(h) && h.gen == gen && h.events == events
    ensures w.View() == h.states[|events|]
  {
    assert Follows(h, 0);
    w := new StageWorker(gen);
    var k := 0;
    while k < |events|
      invariant k <= |events| && fresh(w) && fresh(w.stage) && w.View() == h.states[k]
    {
      w.TurnOfRun(h, k, events[k]);
      k := k + 1;
    }
  }
}
