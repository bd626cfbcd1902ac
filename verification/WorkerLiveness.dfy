/** Work is never lost, doubled or stuck: tasks in progress match outstanding calls one to
    one, the event loop always has something to do, and answers are bounded. */
module WorkerLiveness {
  import opened Tasks
  import opened ProverReplies
  import opened StageSpec
  import opened StageInvariant
  import opened StageSteps
  import opened WorkerSpec
  import opened WorkerCalls
  import opened WorkerInvariant
  import opened WorkerSafety

  // Matching

  ghost predicate SplitCalled(calls: map<CallId, Task>) {
    exists c :: c in calls && calls[c].SplitCall?
  }

  ghost predicate ProveCalled(calls: map<CallId, Task>, id: TaskId) {
    exists c :: c in calls && calls[c].ProveCall? && calls[c].prove.taskId == id
  }

  ghost predicate AggCalled(calls: map<CallId, Task>, id: TaskId) {
    exists c :: c in calls && calls[c].AggCall? && calls[c].agg.taskId == id
  }

  ghost predicate SnarkCalled(calls: map<CallId, Task>) {
    exists c :: c in calls && calls[c].SnarkCall?
  }

  /** Every split, prove and agg task in progress has an outstanding call. */
  ghost predicate Matched(s: StageState, calls: map<CallId, Task>) {
    && (s.splitTask.state == Processing ==> SplitCalled(calls))
    && (forall i :: 0 <= i < |s.proveTasks| && s.proveTasks[i].state == Processing ==>
         ProveCalled(calls, s.proveTasks[i].taskId))
    && (forall p :: 0 <= p < |s.aggTasks| && s.aggTasks[p].state == Processing ==>
         AggCalled(calls, s.aggTasks[p].taskId))
  }

  ghost predicate SnarkMatched(s: StageState, calls: map<CallId, Task>) {
    s.snarkTask.state == Processing ==> SnarkCalled(calls)
  }

  /** More calls match at least as much. */
  lemma CallsAdded(calls: map<CallId, Task>, calls1: map<CallId, Task>)
    requires forall c :: c in calls ==> c in calls1 && calls1[c] == calls[c]
    ensures SplitCalled(calls) ==> SplitCalled(calls1)
    ensures SnarkCalled(calls) ==> SnarkCalled(calls1)
    ensures forall id :: ProveCalled(calls, id) ==> ProveCalled(calls1, id)
    ensures forall id :: AggCalled(calls, id) ==> AggCalled(calls1, id)
  {
    forall id | ProveCalled(calls, id)
      ensures ProveCalled(calls1, id)
    {
      var c :| c in calls && calls[c].ProveCall? && calls[c].prove.taskId == id;
      assert c in calls1;
    }
    forall id | AggCalled(calls, id)
      ensures AggCalled(calls1, id)
    {
      var c :| c in calls && calls[c].AggCall? && calls[c].agg.taskId == id;
      assert c in calls1;
    }
    if SplitCalled(calls) {
      var c :| c in calls && calls[c].SplitCall?;
      assert c in calls1;
    }
    if SnarkCalled(calls) {
      var c :| c in calls && calls[c].SnarkCall?;
      assert c in calls1;
    }
  }

  lemma {:induction false} SpawnSplitMatched(w: Worker, now: nat)
    requires CallsOk(w.stage, w.calls, w.nextCall) && Matched(w.stage, w.calls) && SnarkMatched(w.stage, w.calls)
    ensures var w1 := SpawnSplit(w, now); Matched(w1.stage, w1.calls) && SnarkMatched(w1.stage, w1.calls)
  {
    var w1 := SpawnSplit(w, now);
    CallsAdded(w.calls, w1.calls);
    if w1 != w && Ready(w.stage.splitTask.state) {
      assert w.nextCall in w1.calls;
    }
  }

  /** One task of a list goes in progress, with a call of its own. */
  lemma {:induction false} ProveCallAdded(s: StageState, s1: StageState, calls: map<CallId, Task>, nextCall: CallId, i: nat)
    requires Matched(s, calls) && SnarkMatched(s, calls) && nextCall !in calls
    requires i < |s.proveTasks| == |s1.proveTasks| && s1 == s.(proveTasks := s.proveTasks[i := s1.proveTasks[i]])
    ensures var calls1 := calls[nextCall := ProveCall(s1.proveTasks[i])]; Matched(s1, calls1) && SnarkMatched(s1, calls1)
  {
    var calls1 := calls[nextCall := ProveCall(s1.proveTasks[i])];
    CallsAdded(calls, calls1);
    assert calls1[nextCall].ProveCall? && calls1[nextCall].prove.taskId == s1.proveTasks[i].taskId;
  }

  lemma {:induction false} AggCallAdded(
    s: StageState, s1: StageState, calls: map<CallId, Task>, nextCall: CallId, p: nat, t: AggTask)
    requires Matched(s, calls) && SnarkMatched(s, calls) && nextCall !in calls
    requires p < |s.aggTasks| == |s1.aggTasks| && s1 == s.(aggTasks := s.aggTasks[p := s1.aggTasks[p]])
    requires t.taskId == s1.aggTasks[p].taskId
    ensures var calls1 := calls[nextCall := AggCall(t)]; Matched(s1, calls1) && SnarkMatched(s1, calls1)
  {
    var calls1 := calls[nextCall := AggCall(t)];
    CallsAdded(calls, calls1);
    assert calls1[nextCall].AggCall? && calls1[nextCall].agg.taskId == s1.aggTasks[p].taskId;
  }

  lemma {:induction false} SpawnProveMatched(w: Worker, segments: set<nat>, now: nat)
    requires w.nextCall !in w.calls && Matched(w.stage, w.calls) && SnarkMatched(w.stage, w.calls)
    ensures var w1 := SpawnProve(w, segments, now); Matched(w1.stage, w1.calls) && SnarkMatched(w1.stage, w1.calls)
  {
    var i := FirstWhere(w.stage.proveTasks, ReadyProve(segments));
    if i < |w.stage.proveTasks| {
      ProveCallAdded(w.stage, GetProve(w.stage, segments, now).0, w.calls, w.nextCall, i);
    }
  }

  lemma {:induction false} SpawnAggMatched(w: Worker, now: nat)
    requires w.nextCall !in w.calls && Matched(w.stage, w.calls) && SnarkMatched(w.stage, w.calls)
    ensures var w1 := SpawnAgg(w, now); Matched(w1.stage, w1.calls) && SnarkMatched(w1.stage, w1.calls)
  {
    var p := FirstWhere(w.stage.aggTasks, ReadyAgg());
    if p < |w.stage.aggTasks| {
      var (s1, r) := GetAgg(w.stage, now);
      AggCallAdded(w.stage, s1, w.calls, w.nextCall, p, r.value);
    }
  }

  lemma {:induction false} SpawnSnarkMatched(w: Worker, now: nat)
    requires CallsOk(w.stage, w.calls, w.nextCall) && Matched(w.stage, w.calls) && SnarkMatched(w.stage, w.calls)
    ensures var w1 := SpawnSnark(w, now); Matched(w1.stage, w1.calls) && SnarkMatched(w1.stage, w1.calls)
  {
    var w1 := SpawnSnark(w, now);
    CallsAdded(w.calls, w1.calls);
    if w1 != w && Ready(w.stage.snarkTask.state) {
      assert w.nextCall in w1.calls;
    }
  }

  /** The other calls still match after call c is removed. */
  lemma {:induction false} CallRemoved(calls: map<CallId, Task>, c: CallId)
    requires c in calls
    ensures SplitCalled(calls) && !calls[c].SplitCall? ==> SplitCalled(calls - {c})
    ensures SnarkCalled(calls) && !calls[c].SnarkCall? ==> SnarkCalled(calls - {c})
    ensures forall id :: ProveCalled(calls, id) && !(calls[c].ProveCall? && calls[c].prove.taskId == id) ==>
      ProveCalled(calls - {c}, id)
    ensures forall id :: AggCalled(calls, id) && !(calls[c].AggCall? && calls[c].agg.taskId == id) ==>
      AggCalled(calls - {c}, id)
  {
    var rest := calls - {c};
    forall id | ProveCalled(calls, id) && !(calls[c].ProveCall? && calls[c].prove.taskId == id)
      ensures ProveCalled(rest, id)
    {
      var d :| d in calls && calls[d].ProveCall? && calls[d].prove.taskId == id;
      assert d in rest;
    }
    forall id | AggCalled(calls, id) && !(calls[c].AggCall? && calls[c].agg.taskId == id)
      ensures AggCalled(rest, id)
    {
      var d :| d in calls && calls[d].AggCall? && calls[d].agg.taskId == id;
      assert d in rest;
    }
    if SplitCalled(calls) && !calls[c].SplitCall? {
      var d :| d in calls && calls[d].SplitCall?;
      assert d in rest;
    }
    if SnarkCalled(calls) && !calls[c].SnarkCall? {
      var d :| d in calls && calls[d].SnarkCall?;
      assert d in rest;
    }
  }

  predicate Listed(s: StageState, call: Task) {
    call.ProveCall? ==> exists i :: 0 <= i < |s.proveTasks| && s.proveTasks[i].taskId == call.prove.taskId
  }

  /** A reply that leaves its task in progress although the call is over. */
  predicate LosesTask(s: StageState, call: Task, r: Reply) {
    if call.SnarkCall? then r.Refused?
    else r.Answer? && r.code.Unspecified? && Listed(s, call)
  }

  predicate ProveRuns(s: StageState, id: TaskId) {
    exists i :: 0 <= i < |s.proveTasks| && s.proveTasks[i].taskId == id && s.proveTasks[i].state == Processing
  }

  predicate AggRuns(s: StageState, id: TaskId) {
    exists p :: 0 <= p < |s.aggTasks| && s.aggTasks[p].taskId == id && s.aggTasks[p].state == Processing
  }

  /** Once the call for prove task id is over, the matching depends on that task alone. */
  lemma {:induction false} ProveCallOver(s: StageState, s1: StageState, calls: map<CallId, Task>, c: CallId, id: TaskId)
    requires OthersKept(s, s1, id) && Matched(s, calls)
    requires c in calls && calls[c].ProveCall? && calls[c].prove.taskId == id && !ProveCalled(calls - {c}, id)
    requires forall p :: 0 <= p < |s.aggTasks| ==> s.aggTasks[p].taskId != id
    ensures Matched(s1, calls - {c}) <==> !ProveRuns(s1, id)
  {
    CallRemoved(calls, c);
  }

  lemma {:induction false} AggCallOver(s: StageState, s1: StageState, calls: map<CallId, Task>, c: CallId, id: TaskId)
    requires OthersKept(s, s1, id) && Matched(s, calls) && s1.proveTasks == s.proveTasks
    requires c in calls && calls[c].AggCall? && calls[c].agg.taskId == id && !AggCalled(calls - {c}, id)
    ensures Matched(s1, calls - {c}) <==> !AggRuns(s1, id)
  {
    CallRemoved(calls, c);
  }

  lemma {:induction false} OnlyProveCall(s: StageState, calls: map<CallId, Task>, nextCall: CallId, c: CallId)
    requires CallsOk(s, calls, nextCall) && c in calls && calls[c].ProveCall?
    ensures !ProveCalled(calls - {c}, calls[c].prove.taskId)
  {
  }

  lemma {:induction false} OnlyAggCall(s: StageState, calls: map<CallId, Task>, nextCall: CallId, c: CallId)
    requires CallsOk(s, calls, nextCall) && c in calls && calls[c].AggCall?
    ensures !AggCalled(calls - {c}, calls[c].agg.taskId)
  {
  }

  /** The answered task runs on exactly when it is listed and the answer is not accepted. */
  lemma {:induction false} ProveAnswered(s: StageState, t: ProveTask, r: Reply, now: nat)
    requires IdsOk(s) && ProveMessageOk(s, ProveReply(t, r))
    ensures ProveRuns(OnProve(s, ProveReply(t, r), now), t.taskId) <==> LosesTask(s, ProveCall(t), r)
  {
    var m := ProveReply(t, r);
    var i := FirstWhere(s.proveTasks, RunningProve(m.taskId));
    var s1 := AcceptProve(s, m, now);
    assert OnProve(s, m, now).proveTasks == s1.proveTasks;
    if i < |s.proveTasks| {
      assert Listed(s, ProveCall(t));
      assert s1.proveTasks[i].taskId == t.taskId;
    }
  }

  lemma {:induction false} TakeProveMatched(s: StageState, calls: map<CallId, Task>, nextCall: CallId, c: CallId, r: Reply, now: nat)
    requires TasksOk(s) && CallsOk(s, calls, nextCall) && Matched(s, calls) && c in calls && calls[c].ProveCall?
    ensures Matched(OnProve(s, ProveReply(calls[c].prove, r), now), calls - {c}) <==> !LosesTask(s, calls[c], r)
  {
    var t := calls[c].prove;
    ProveReplyOk(s, t, r);
    OnProveOthers(s, ProveReply(t, r), now);
    OnlyProveCall(s, calls, nextCall, c);
    ProveCallOver(s, OnProve(s, ProveReply(t, r), now), calls, c, t.taskId);
    ProveAnswered(s, t, r, now);
  }

  lemma {:induction false} AggRunsAt(s: StageState, s1: StageState, id: TaskId)
    requires IdsOk(s) && OthersKept(s, s1, id) && Base(s) <= id < Base(s) + |s.aggTasks|
    ensures AggRuns(s1, id) <==> s1.aggTasks[id - Base(s)].state == Processing
  {
    forall q | 0 <= q < |s.aggTasks|
      ensures s1.aggTasks[q].taskId == Base(s) + q
    {
      assert s1.aggTasks[q].taskId == s.aggTasks[q].taskId;
    }
    assert s1.aggTasks[id - Base(s)].taskId == id;
  }

  lemma {:induction false} AggStays(s: StageState, t: AggTask, r: Reply, now: nat)
    requires TasksOk(s) && AggCallOk(s, t)
    ensures AggRuns(OnAgg(s, AggReply(t, r), now), t.taskId) <==> LosesTask(s, AggCall(t), r)
  {
    AggReplyOk(s, t, r);
    AggAnswered(s, AggReply(t, r), now, t.taskId - Base(s));
    OnAggOthers(s, AggReply(t, r), now);
    AggRunsAt(s, OnAgg(s, AggReply(t, r), now), t.taskId);
  }

  lemma {:induction false} TakeAggMatched(s: StageState, calls: map<CallId, Task>, nextCall: CallId, c: CallId, r: Reply, now: nat)
    requires TasksOk(s) && CallsOk(s, calls, nextCall) && Matched(s, calls) && c in calls && calls[c].AggCall?
    ensures Matched(OnAgg(s, AggReply(calls[c].agg, r), now), calls - {c}) <==> !LosesTask(s, calls[c], r)
  {
    var t := calls[c].agg;
    assert CallOk(s, calls[c]);
    OnAggOthers(s, AggReply(t, r), now);
    OnlyAggCall(s, calls, nextCall, c);
    AggCallOver(s, OnAgg(s, AggReply(t, r), now), calls, c, t.taskId);
    AggStays(s, t, r, now);
  }

  ghost predicate AllMatched(w: Worker) {
    Matched(w.stage, w.calls) && SnarkMatched(w.stage, w.calls)
  }

  lemma {:induction false} TakeSplitMatched(s: StageState, calls: map<CallId, Task>, nextCall: CallId, c: CallId, r: Reply, now: nat)
    requires CallsOk(s, calls, nextCall) && Matched(s, calls) && c in calls && calls[c].SplitCall?
    ensures Matched(OnSplit(s, SplitReply(calls[c].split, r), now), calls - {c}) <==> !LosesTask(s, calls[c], r)
  {
    assert CallOk(s, calls[c]);
    CallRemoved(calls, c);
    assert !SplitCalled(calls - {c});
  }

  lemma {:induction false} TakeSnarkMatched(s: StageState, calls: map<CallId, Task>, nextCall: CallId, c: CallId, r: Reply, now: nat)
    requires CallsOk(s, calls, nextCall) && SnarkMatched(s, calls) && c in calls && calls[c].SnarkCall?
    ensures SnarkMatched(OnSnark(s, SnarkReply(calls[c].snark, r), now), calls - {c}) <==> !LosesTask(s, calls[c], r)
  {
    assert CallOk(s, calls[c]);
    assert !SnarkCalled(calls - {c});
  }

  /** Receiving keeps the matching exactly when the reply says what became of its task:
      an answer with the unspecified code loses a split, prove or agg task, and a refused
      snark call loses the snark task. */
  lemma {:induction false} ReceiveMatched(w: Worker, delivery: Delivery, now: nat)
    requires TasksOk(w.stage) && CallsOk(w.stage, w.calls, w.nextCall)
    requires AllMatched(w) && delivery.call in w.calls
    ensures AllMatched(Receive(w, Some(delivery), now)) <==> !LosesTask(w.stage, w.calls[delivery.call], delivery.reply)
  {
    var c, r, s := delivery.call, delivery.reply, w.stage;
    match w.calls[c]
    case SplitCall(t) =>
      TakeSplitMatched(s, w.calls, w.nextCall, c, r, now);
      CallRemoved(w.calls, c);
    case ProveCall(t) =>
      TakeProveMatched(s, w.calls, w.nextCall, c, r, now);
      OnProvePhase(s, ProveReply(t, r), now);
      CallRemoved(w.calls, c);
    case AggCall(t) =>
      TakeAggMatched(s, w.calls, w.nextCall, c, r, now);
      OnAggPhase(s, AggReply(t, r), now);
      CallRemoved(w.calls, c);
    case SnarkCall(t) =>
      TakeSnarkMatched(s, w.calls, w.nextCall, c, r, now);
      CallRemoved(w.calls, c);
  }
}
