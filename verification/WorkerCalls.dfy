/** Outstanding calls: each works on a task that is being processed, no two on the same
    one, and whatever a call returns is a message its stage can take. */
module WorkerCalls {
  import opened Receipts
  import opened AggPlan
  import opened Tasks
  import opened ProverReplies
  import opened StageSpec
  import opened StageInvariant
  import opened StageSteps
  import opened StageProgress
  import opened WorkerSpec

  ghost predicate ProveCallOk(s: StageState, t: ProveTask) {
    && t.taskId < Base(s)
    && forall i :: 0 <= i < |s.proveTasks| && s.proveTasks[i].taskId == t.taskId ==>
         s.proveTasks[i].state == Processing && s.proveTasks[i].fileNo == t.fileNo
  }

  /** The call's task is the listed one, but for its filled inputs and its slots. */
  predicate SentAs(t: AggTask, listed: AggTask) {
    t == listed.(inputs := t.inputs, childs := t.childs)
  }

  ghost predicate AggCallOk(s: StageState, t: AggTask) {
    && Built(s)
    && var p := t.taskId - Base(s);
    && InTree(s, p)
    && s.aggTasks[p].state == Processing && SentAs(t, s.aggTasks[p])
    && Aggregate(InputReceipts(t.inputs)) == NodeReceipt(LeafReceipts(s.proveTasks), |s.proveTasks| + p)
  }

  ghost predicate CallOk(s: StageState, call: Task) {
    match call
    case SplitCall(t) => s.splitTask.state == Processing
    case ProveCall(t) => ProveCallOk(s, t)
    case AggCall(t) => AggCallOk(s, t)
    case SnarkCall(t) => t.state == s.snarkTask.state == Processing && t.aggReceipt == s.snarkTask.aggReceipt
  }

  predicate SameTarget(a: Task, b: Task) {
    || (a.SplitCall? && b.SplitCall?)
    || (a.SnarkCall? && b.SnarkCall?)
    || (a.ProveCall? && b.ProveCall? && a.prove.taskId == b.prove.taskId)
    || (a.AggCall? && b.AggCall? && a.agg.taskId == b.agg.taskId)
  }

  ghost predicate CallsOk(s: StageState, calls: map<CallId, Task>, nextCall: CallId) {
    && (forall c :: c in calls ==> c < nextCall && CallOk(s, calls[c]))
    && (forall c, d :: c in calls && d in calls && c != d ==> !SameTarget(calls[c], calls[d]))
  }

  /** Every call stays good when the stage moves from s to s1. */
  ghost predicate CallsSurvive(s: StageState, s1: StageState, calls: map<CallId, Task>) {
    forall c :: c in calls && CallOk(s, calls[c]) ==> CallOk(s1, calls[c])
  }

  lemma AddCall(s: StageState, calls: map<CallId, Task>, nextCall: CallId, s1: StageState, call: Task)
    requires CallsOk(s, calls, nextCall) && CallsSurvive(s, s1, calls) && CallOk(s1, call)
    requires forall c :: c in calls ==> !SameTarget(calls[c], call) && !SameTarget(call, calls[c])
    ensures CallsOk(s1, calls[nextCall := call], nextCall + 1)
  {
  }

  lemma RemoveCall(s: StageState, calls: map<CallId, Task>, nextCall: CallId, s1: StageState, c: CallId)
    requires CallsOk(s, calls, nextCall) && CallsSurvive(s, s1, calls - {c})
    ensures CallsOk(s1, calls - {c}, nextCall)
  {
  }

  lemma AggCallKept(s: StageState, s1: StageState, t: AggTask)
    requires AggCallOk(s, t)
    requires Built(s1) && Base(s1) == Base(s) && |s1.proveTasks| == |s.proveTasks| && |s1.aggTasks| == |s.aggTasks|
    requires LeafReceipts(s1.proveTasks) == LeafReceipts(s.proveTasks)
    requires var p := t.taskId - Base(s);
      s1.aggTasks[p] == s.aggTasks[p].(childs := s1.aggTasks[p].childs)
    ensures AggCallOk(s1, t)
  {
  }

  // Handing out

  lemma {:induction false} SpawnSplitCalls(w: Worker, now: nat)
    requires CallsOk(w.stage, w.calls, w.nextCall)
    ensures var w1 := SpawnSplit(w, now); CallsOk(w1.stage, w1.calls, w1.nextCall)
  {
    var s, s1 := w.stage, GetSplit(w.stage, now).0;
    if s.step == Prove && Ready(s.splitTask.state) {
      forall c | c in w.calls && CallOk(s, w.calls[c])
        ensures CallOk(s1, w.calls[c])
      {
        if w.calls[c].AggCall? {
          AggCallKept(s, s1, w.calls[c].agg);
        }
      }
      AddCall(s, w.calls, w.nextCall, s1, SplitCall(s1.splitTask));
    }
  }

  lemma {:induction false} SpawnSnarkCalls(w: Worker, now: nat)
    requires CallsOk(w.stage, w.calls, w.nextCall)
    ensures var w1 := SpawnSnark(w, now); CallsOk(w1.stage, w1.calls, w1.nextCall)
  {
    var s, s1 := w.stage, GetSnark(w.stage, now).0;
    if s.step == Snark && Ready(s.snarkTask.state) {
      forall c | c in w.calls && CallOk(s, w.calls[c])
        ensures CallOk(s1, w.calls[c])
      {
        if w.calls[c].AggCall? {
          AggCallKept(s, s1, w.calls[c].agg);
        }
      }
      AddCall(s, w.calls, w.nextCall, s1, SnarkCall(s1.snarkTask));
    }
  }

  /** One prove task of the list became processed. */
  ghost predicate ProveStarted(s: StageState, s1: StageState, i: nat) {
    && i < |s.proveTasks| == |s1.proveTasks|
    && s1 == s.(proveTasks := s.proveTasks[i := s1.proveTasks[i]])
    && s1.proveTasks[i] == s.proveTasks[i].(state := Processing, trace := s1.proveTasks[i].trace)
    && Ready(s.proveTasks[i].state) && !s.proveTasks[i].isDeferred
  }

  lemma {:induction false} ProveStartedCalls(
    s: StageState, s1: StageState, i: nat, calls: map<CallId, Task>, nextCall: CallId)
    requires TasksOk(s) && CallsOk(s, calls, nextCall) && ProveStarted(s, s1, i)
    ensures CallsOk(s1, calls[nextCall := ProveCall(s1.proveTasks[i])], nextCall + 1)
  {
    assert LeafReceipts(s1.proveTasks) == LeafReceipts(s.proveTasks);
    forall c | c in calls && CallOk(s, calls[c])
      ensures CallOk(s1, calls[c])
    {
      if calls[c].AggCall? {
        AggCallKept(s, s1, calls[c].agg);
      }
    }
    AddCall(s, calls, nextCall, s1, ProveCall(s1.proveTasks[i]));
  }

  lemma {:induction false} SpawnProveCalls(w: Worker, segments: set<nat>, now: nat)
    requires TasksOk(w.stage) && CallsOk(w.stage, w.calls, w.nextCall)
    ensures var w1 := SpawnProve(w, segments, now); CallsOk(w1.stage, w1.calls, w1.nextCall)
  {
    var s := w.stage;
    var i := FirstWhere(s.proveTasks, ReadyProve(segments));
    if s.step == Prove && CountProcessing(s) < s.gen.maxProverNum && i < |s.proveTasks| {
      ProveStartedCalls(s, GetProve(s, segments, now).0, i, w.calls, w.nextCall);
    }
  }

  lemma {:induction false} AggStartedCalls(
    s: StageState, s1: StageState, p: nat, t: AggTask, calls: map<CallId, Task>, nextCall: CallId)
    requires TasksOk(s) && CallsOk(s, calls, nextCall) && AggCallOk(s1, t)
    requires p < |s.aggTasks| == |s1.aggTasks| && Ready(s.aggTasks[p].state) && t.taskId == s.aggTasks[p].taskId
    requires s1 == s.(aggTasks := s.aggTasks[p := s1.aggTasks[p]])
    requires s1.aggTasks[p].taskId == s.aggTasks[p].taskId
    ensures CallsOk(s1, calls[nextCall := AggCall(t)], nextCall + 1)
  {
    assert Base(s1) == Base(s);
    forall c | c in calls && CallOk(s, calls[c])
      ensures CallOk(s1, calls[c]) && !SameTarget(calls[c], AggCall(t))
    {
      if calls[c].AggCall? {
        AggCallKept(s, s1, calls[c].agg);
      }
    }
    AddCall(s, calls, nextCall, s1, AggCall(t));
  }

  lemma {:induction false} SpawnAggCalls(w: Worker, now: nat)
    requires TasksOk(w.stage) && CallsOk(w.stage, w.calls, w.nextCall)
    ensures var w1 := SpawnAgg(w, now); CallsOk(w1.stage, w1.calls, w1.nextCall)
  {
    var s := w.stage;
    var (s1, r) := GetAgg(s, now);
    if SpawnAgg(w, now) != w && r.Some? {
      HandedOutComplete(s, now);
      var p := r.value.taskId - Base(s);
      assert Base(s1) == Base(s);
      AggStartedCalls(s, s1, p, r.value, w.calls, w.nextCall);
    }
  }

  // Receiving

  lemma ProveReplyOk(s: StageState, t: ProveTask, r: Reply)
    requires ProveCallOk(s, t)
    ensures ProveMessageOk(s, ProveReply(t, r))
  {
  }

  lemma AggReplyOk(s: StageState, t: AggTask, r: Reply)
    requires AggCallOk(s, t)
    ensures AggMessageOk(s, AggReply(t, r))
  {
  }

  /** What an answer leaves alone. */
  ghost predicate OthersKept(s: StageState, s1: StageState, id: TaskId) {
    && s1.gen == s.gen && s1.tasksGenDone == s.tasksGenDone && s1.nextId == s.nextId
    && s1.splitTask == s.splitTask && s1.snarkTask == s.snarkTask && s1.step == s.step
    && |s1.proveTasks| == |s.proveTasks| && |s1.aggTasks| == |s.aggTasks| && Base(s1) == Base(s)
    && LeafReceipts(s1.proveTasks) == LeafReceipts(s.proveTasks)
    && (forall i :: 0 <= i < |s.proveTasks| ==>
         && s1.proveTasks[i].taskId == s.proveTasks[i].taskId
         && (s.proveTasks[i].taskId == id || s1.proveTasks[i] == s.proveTasks[i]))
    && (forall p :: 0 <= p < |s.aggTasks| ==>
         && SameAggTask(s.aggTasks[p], s1.aggTasks[p])
         && (s.aggTasks[p].taskId == id ||
               (s1.aggTasks[p].state == s.aggTasks[p].state && s1.aggTasks[p].output == s.aggTasks[p].output
                && s1.aggTasks[p].trace == s.aggTasks[p].trace)))
  }

  lemma {:induction false} AcceptProveOthers(s: StageState, m: ProveTask, now: nat)
    requires ProvesOk(s)
    ensures OthersKept(s, AcceptProve(s, m, now), m.taskId)
  {
    var i, s1 := FirstWhere(s.proveTasks, RunningProve(m.taskId)), AcceptProve(s, m, now);
    if i < |s.proveTasks| {
      assert ProveOk(s.proveTasks[i], i);
      assert LeafReceipt(s1.proveTasks[i]) == LeafReceipt(s.proveTasks[i]);
    }
    assert LeafReceipts(s1.proveTasks) == LeafReceipts(s.proveTasks);
  }

  lemma {:induction false} AcceptAggOthers(s: StageState, m: AggTask, now: nat)
    ensures OthersKept(s, AcceptAgg(s, m, now), m.taskId)
  {
    var p, s1 := FirstWhere(s.aggTasks, RunningAgg(m.taskId)), AcceptAgg(s, m, now);
    forall q | 0 <= q < |s.aggTasks|
      ensures q == p || s1.aggTasks[q] == s.aggTasks[q]
    {
    }
  }

  lemma {:induction false} ClearOthers(s: StageState, s1: StageState, s2: StageState, id: TaskId)
    requires OthersKept(s, s1, id)
    requires s2 == s1.(aggTasks := ClearAgg(s1.aggTasks, id), snarkFile := s2.snarkFile)
    ensures OthersKept(s, s2, id)
  {
    ClearAggKeeps(s1.aggTasks, id);
    forall p | 0 <= p < |s.aggTasks|
      ensures s2.aggTasks[p] == s1.aggTasks[p].(childs := s2.aggTasks[p].childs)
    {
    }
  }

  lemma {:induction false} OnProveOthers(s: StageState, m: ProveTask, now: nat)
    requires ProvesOk(s)
    ensures OthersKept(s, OnProve(s, m, now), m.taskId)
    ensures OnProve(s, m, now).snarkFile == s.snarkFile
  {
    var s1, s2 := AcceptProve(s, m, now), OnProve(s, m, now);
    AcceptProveOthers(s, m, now);
    if m.state == Success {
      ClearOthers(s, s1, s2, m.taskId);
    }
  }

  lemma {:induction false} OnAggOthers(s: StageState, m: AggTask, now: nat)
    ensures OthersKept(s, OnAgg(s, m, now), m.taskId)
    ensures OnAgg(s, m, now).proveTasks == s.proveTasks
  {
    var s1, s2 := AcceptAgg(s, m, now), OnAgg(s, m, now);
    AcceptAggOthers(s, m, now);
    if m.state == Success {
      ClearOthers(s, s1, s2, m.taskId);
    }
  }

  lemma {:induction false} OthersSurvive(s: StageState, s1: StageState, call: Task, id: TaskId)
    requires CallOk(s, call) && OthersKept(s, s1, id)
    requires call.ProveCall? ==> call.prove.taskId != id
    requires call.AggCall? ==> call.agg.taskId != id
    requires TasksOk(s)
    ensures CallOk(s1, call)
  {
    if call.AggCall? {
      var p := call.agg.taskId - Base(s);
      assert s.aggTasks[p].taskId == call.agg.taskId;
      AggCallKept(s, s1, call.agg);
    }
  }

  lemma {:induction false} TakeProveCalls(s: StageState, calls: map<CallId, Task>, nextCall: CallId, c: CallId, r: Reply, now: nat)
    requires TasksOk(s) && CallsOk(s, calls, nextCall) && c in calls && calls[c].ProveCall?
    ensures CallsOk(OnProve(s, ProveReply(calls[c].prove, r), now), calls - {c}, nextCall)
  {
    var m := ProveReply(calls[c].prove, r);
    var s1 := OnProve(s, m, now);
    ProveReplyOk(s, calls[c].prove, r);
    OnProveOthers(s, m, now);
    forall d | d in calls - {c} && CallOk(s, calls[d])
      ensures CallOk(s1, calls[d])
    {
      assert !SameTarget(calls[d], calls[c]);
      OthersSurvive(s, s1, calls[d], m.taskId) by {
        if calls[d].AggCall? {
          assert m.taskId < Base(s) <= calls[d].agg.taskId;
        }
      }
    }
    RemoveCall(s, calls, nextCall, s1, c);
  }

  lemma {:induction false} TakeAggCalls(s: StageState, calls: map<CallId, Task>, nextCall: CallId, c: CallId, r: Reply, now: nat)
    requires TasksOk(s) && CallsOk(s, calls, nextCall) && c in calls && calls[c].AggCall?
    ensures CallsOk(OnAgg(s, AggReply(calls[c].agg, r), now), calls - {c}, nextCall)
  {
    var m := AggReply(calls[c].agg, r);
    var s1 := OnAgg(s, m, now);
    AggReplyOk(s, calls[c].agg, r);
    OnAggOthers(s, m, now);
    forall d | d in calls - {c} && CallOk(s, calls[d])
      ensures CallOk(s1, calls[d])
    {
      assert !SameTarget(calls[d], calls[c]);
      OthersSurvive(s, s1, calls[d], m.taskId) by {
        if calls[d].ProveCall? {
          assert calls[d].prove.taskId < Base(s) <= m.taskId;
        }
      }
    }
    RemoveCall(s, calls, nextCall, s1, c);
  }

  /** Replacing the split task or the snark task does not concern the other calls. */
  lemma {:induction false} TakeOtherCalls(s: StageState, s1: StageState, calls: map<CallId, Task>, nextCall: CallId, c: CallId)
    requires CallsOk(s, calls, nextCall) && c in calls
    requires s1 == s.(splitTask := s1.splitTask, snarkTask := s1.snarkTask, isError := s1.isError, snarkFile := s1.snarkFile)
    requires (calls[c].SplitCall? && s1.snarkTask == s.snarkTask) || (calls[c].SnarkCall? && s1.splitTask == s.splitTask)
    ensures CallsOk(s1, calls - {c}, nextCall)
  {
    forall d | d in calls - {c} && CallOk(s, calls[d])
      ensures CallOk(s1, calls[d])
    {
      assert !SameTarget(calls[d], calls[c]);
      if calls[d].AggCall? {
        AggCallKept(s, s1, calls[d].agg);
      }
    }
    RemoveCall(s, calls, nextCall, s1, c);
  }

  lemma {:induction false} ReceiveCalls(w: Worker, delivery: Option<Delivery>, now: nat)
    requires TasksOk(w.stage) && CallsOk(w.stage, w.calls, w.nextCall)
    ensures var w1 := Receive(w, delivery, now); CallsOk(w1.stage, w1.calls, w1.nextCall)
  {
    if delivery.Some? && delivery.value.call in w.calls {
      var c, r, s := delivery.value.call, delivery.value.reply, w.stage;
      match w.calls[c]
      case SplitCall(t) => TakeOtherCalls(s, OnSplit(s, SplitReply(t, r), now), w.calls, w.nextCall, c);
      case ProveCall(t) => TakeProveCalls(s, w.calls, w.nextCall, c, r, now);
      case AggCall(t) => TakeAggCalls(s, w.calls, w.nextCall, c, r, now);
      case SnarkCall(t) => TakeOtherCalls(s, OnSnark(s, SnarkReply(t, r), now), w.calls, w.nextCall, c);
    }
  }

  lemma {:induction false} ReceiveTasks(w: Worker, delivery: Option<Delivery>, now: nat)
    requires TasksOk(w.stage) && CallsOk(w.stage, w.calls, w.nextCall)
    ensures TasksOk(Receive(w, delivery, now).stage)
  {
    if delivery.Some? && delivery.value.call in w.calls {
      var c, r, s := delivery.value.call, delivery.value.reply, w.stage;
      assert CallOk(s, w.calls[c]);
      match w.calls[c]
      case SplitCall(t) => SnarkFileAside(s, OnSplit(s, SplitReply(t, r), now));
      case ProveCall(t) =>
        ProveReplyOk(s, t, r);
        OnProveKeeps(s, ProveReply(t, r), now);
      case AggCall(t) =>
        AggReplyOk(s, t, r);
        OnAggKeeps(s, AggReply(t, r), now);
      case SnarkCall(t) => SnarkFileAside(s, OnSnark(s, SnarkReply(t, r), now));
    }
  }
}
