/** What the aggregation tree guarantees while it is being worked off: inputs handed out
    are complete, work is always available, and decisive answers are bounded. */
module StageProgress {
  import opened Receipts
  import opened AggPlan
  import opened Tasks
  import opened ProverReplies
  import opened StageSpec
  import opened StageInvariant
  import opened StageSteps

  lemma {:induction false} FoundByName(s: StageState, x: nat)
    requires TasksOk(s) && x < |s.proveTasks| + |s.aggTasks|
    ensures x < |s.proveTasks| ==> FirstWhere(s.proveTasks, NamedProve(IdOf(s, x))) == x
    ensures x >= |s.proveTasks| ==> FirstWhere(s.aggTasks, NamedAgg(IdOf(s, x))) == x - |s.proveTasks|
  {
    if x < |s.proveTasks| {
      FirstWhereIs(s.proveTasks, NamedProve(IdOf(s, x)), x);
    } else {
      FirstWhereIs(s.aggTasks, NamedAgg(IdOf(s, x)), x - |s.proveTasks|);
    }
  }

  function NodeOutput(s: StageState, x: nat): Receipt
    requires x < |s.proveTasks| + |s.aggTasks|
  {
    if x < |s.proveTasks| then s.proveTasks[x].output else s.aggTasks[x - |s.proveTasks|].output
  }

  lemma {:induction false} DoneOutput(s: StageState, x: nat)
    requires TasksOk(s) && Built(s) && x < |s.proveTasks| + |s.aggTasks| && NodeDone(s, x)
    ensures NodeOutput(s, x) == NodeReceipt(LeafReceipts(s.proveTasks), x)
  {
    if x < |s.proveTasks| {
      assert ProveOk(s.proveTasks[x], x);
    } else {
      assert ProgressOk(s, x - |s.proveTasks|);
    }
  }

  /** Input j of the task at position p resolves to the output of the done task it names. */
  lemma {:induction false} InputResolves(s: StageState, p: nat, j: nat)
    requires TasksOk(s) && InTree(s, p) && Built(s) && j < |Kids(s, p)| && NodeDone(s, Kids(s, p)[j])
    ensures |s.aggTasks[p].inputs| == |Kids(s, p)|
    ensures var input, x := s.aggTasks[p].inputs[j], Kids(s, p)[j];
      && InputFound(s, input)
      && FilledInput(s, input).receiptInput == NodeOutput(s, x) == NodeReceipt(LeafReceipts(s.proveTasks), x)
  {
    assert AggFixed(s, p);
    var x := Kids(s, p)[j];
    FoundByName(s, x);
    DoneOutput(s, x);
    assert x < |s.proveTasks| <==> p < |s.proveTasks| by {
      PlanKids(|s.proveTasks|);
      assert IsSlot(Plan(|s.proveTasks|), p, j);
    }
  }

  /** The inputs of the task at position p as get_agg_task fills them in. */
  ghost predicate FilledFromDone(s: StageState, p: nat, filled: seq<AggregateInput>)
    requires InTree(s, p)
  {
    && |filled| == |Kids(s, p)|
    && forall j :: 0 <= j < |Kids(s, p)| ==>
         NodeDone(s, Kids(s, p)[j]) && filled[j].receiptInput == NodeOutput(s, Kids(s, p)[j])
  }

  lemma {:induction false} InputsFilled(s: StageState, p: nat)
    requires TasksOk(s) && Built(s) && InTree(s, p)
    requires forall j :: 0 <= j < |Kids(s, p)| ==> NodeDone(s, Kids(s, p)[j])
    ensures |s.aggTasks[p].inputs| == |Kids(s, p)|
    ensures forall j :: 0 <= j < |Kids(s, p)| ==> InputFound(s, s.aggTasks[p].inputs[j])
    ensures FilledFromDone(s, p, FilledInputs(s, s.aggTasks[p].inputs))
  {
    assert AggFixed(s, p);
    forall j | 0 <= j < |Kids(s, p)|
      ensures InputFound(s, s.aggTasks[p].inputs[j])
      ensures FilledInput(s, s.aggTasks[p].inputs[j]).receiptInput == NodeOutput(s, Kids(s, p)[j])
    {
      InputResolves(s, p, j);
    }
  }

  /** Filled inputs aggregate to the receipt of their task. */
  lemma {:induction false} FilledAggregate(s: StageState, p: nat, filled: seq<AggregateInput>)
    requires TasksOk(s) && Built(s) && InTree(s, p) && FilledFromDone(s, p, filled)
    ensures Aggregate(InputReceipts(filled)) == NodeReceipt(LeafReceipts(s.proveTasks), |s.proveTasks| + p)
  {
    var kids, x := Kids(s, p), |s.proveTasks| + p;
    forall j | 0 <= j < |kids|
      ensures filled[j].receiptInput == NodeReceipt(LeafReceipts(s.proveTasks), kids[j])
    {
      DoneOutput(s, kids[j]);
    }
    assert InputReceipts(filled) == NodeReceipt(LeafReceipts(s.proveTasks), x).inputs;
  }

  /** get_agg_task never fails a lookup, and the task it hands out carries the receipts
      of finished tasks only, those its own receipt has to aggregate. */
  lemma {:induction false} HandedOutComplete(s: StageState, now: nat)
    requires TasksOk(s)
    ensures LookupsSucceed(s)
    ensures var r := GetAgg(s, now).1; r.Some? ==>
      var p := r.value.taskId - Base(s);
      && InTree(s, p) && p == FirstWhere(s.aggTasks, ReadyAgg())
      && FilledFromDone(s, p, r.value.inputs)
      && Aggregate(InputReceipts(r.value.inputs)) == NodeReceipt(LeafReceipts(s.proveTasks), |s.proveTasks| + p)
  {
    var p := FirstWhere(s.aggTasks, ReadyAgg());
    if p < |s.aggTasks| {
      UnblockedKidsDone(s, p);
      InputsFilled(s, p);
      FilledAggregate(s, p, FilledInputs(s, s.aggTasks[p].inputs));
    }
  }

  /** With the tree built and all segments proved, unfinished aggregation never stalls:
      a task is in progress or one can be handed out. */
  lemma {:induction false} NoAggDeadlock(s: StageState)
    requires TasksOk(s) && Built(s) && AllProved(s) && !AllAggregated(s)
    ensures (exists p :: 0 <= p < |s.aggTasks| && s.aggTasks[p].state == Processing)
         || FirstWhere(s.aggTasks, ReadyAgg()) < |s.aggTasks|
  {
    var p :| 0 <= p < |s.aggTasks| && s.aggTasks[p].state != Success;
    FirstUnfinished(s, p);
  }

  /** Descent on the list position: the first unfinished task has all its inputs. */
  lemma {:induction false} FirstUnfinished(s: StageState, p: nat)
    requires TasksOk(s) && Built(s) && AllProved(s)
    requires p < |s.aggTasks| && s.aggTasks[p].state != Success
    ensures (exists q :: 0 <= q < |s.aggTasks| && s.aggTasks[q].state == Processing)
         || FirstWhere(s.aggTasks, ReadyAgg()) < |s.aggTasks|
    decreases p
  {
    assert AggFixed(s, p) && SlotsOk(s, p) && ProgressOk(s, p);
    var kids := Kids(s, p);
    if j :| 0 <= j < |kids| && !NodeDone(s, kids[j]) {
      FirstUnfinished(s, kids[j] - |s.proveTasks|);
    } else if s.aggTasks[p].state != Processing {
      assert Unblocked(s.aggTasks[p]);
      assert ReadyAgg()(s.aggTasks[p]);
    }
  }

  // The number of decisive answers a built tree can still absorb

  function Attempts(t: ProveTask): nat {
    if t.state == Success then 0 else if t.failureCount <= MAX_FAILURES then MAX_FAILURES + 1 - t.failureCount else 0
  }

  function ProveAttempts(ts: seq<ProveTask>): nat {
    if ts == [] then 0 else Attempts(ts[0]) + ProveAttempts(ts[1..])
  }

  function AggNotIn(state: TaskState): AggTask -> bool {
    (t: AggTask) => t.state != state
  }

  function Remaining(s: StageState): nat {
    ProveAttempts(s.proveTasks) + CountWhere(s.aggTasks, AggNotIn(Success))
  }

  lemma {:induction false} AttemptsUpdate(ts: seq<ProveTask>, i: nat, t: ProveTask)
    requires i < |ts|
    ensures ProveAttempts(ts[i := t]) == ProveAttempts(ts) - Attempts(ts[i]) + Attempts(t)
  {
    if i > 0 {
      assert ts[i := t][1..] == ts[1..][i - 1 := t];
      AttemptsUpdate(ts[1..], i - 1, t);
    } else {
      assert ts[i := t][1..] == ts[1..];
    }
  }

  lemma {:induction false} SameStatesSameCount(aggs: seq<AggTask>, aggs1: seq<AggTask>)
    requires |aggs1| == |aggs| && forall p :: 0 <= p < |aggs| ==> aggs1[p].state == aggs[p].state
    ensures CountWhere(aggs1, AggNotIn(Success)) == CountWhere(aggs, AggNotIn(Success))
  {
    if aggs != [] {
      SameStatesSameCount(aggs[1..], aggs1[1..]);
    }
  }

  lemma ClearAggCount(aggs: seq<AggTask>, id: TaskId)
    ensures CountWhere(ClearAgg(aggs, id), AggNotIn(Success)) == CountWhere(aggs, AggNotIn(Success))
  {
    ClearAggKeeps(aggs, id);
    SameStatesSameCount(aggs, ClearAgg(aggs, id));
  }

  /** A decisive answer to a running prove task ends the stage in error or uses up an
      attempt; any other message leaves the remaining work as it was. */
  lemma {:induction false} ProveAnswerCounts(s: StageState, m: ProveTask, now: nat)
    requires ProvesOk(s)
    ensures var s1, hit := OnProve(s, m, now), FirstWhere(s.proveTasks, RunningProve(m.taskId)) < |s.proveTasks|;
      if hit && Decisive(m.state) then s1.isError || Remaining(s1) < Remaining(s)
      else Remaining(s1) == Remaining(s) && s1.isError == s.isError
  {
    var i := FirstWhere(s.proveTasks, RunningProve(m.taskId));
    var s1 := AcceptProve(s, m, now);
    ClearAggCount(s1.aggTasks, m.taskId);
    if i < |s.proveTasks| && Accepted(m.state) {
      assert ProveOk(s.proveTasks[i], i);
      AttemptsUpdate(s.proveTasks, i, Answered(s.proveTasks[i], m, now));
    }
  }

  /** A failed segment may be tried again exactly if it had failed less than three times
      before: the stage errs on the fourth failure. */
  lemma {:induction false} FourthFailureErrs(s: StageState, m: ProveTask, now: nat)
    requires ProvesOk(s) && !s.isError && m.state == Failed
    requires FirstWhere(s.proveTasks, RunningProve(m.taskId)) < |s.proveTasks|
    ensures var s1, i := OnProve(s, m, now), FirstWhere(s.proveTasks, RunningProve(m.taskId));
      && (s1.isError <==> s.proveTasks[i].failureCount == MAX_FAILURES)
      && Ready(s1.proveTasks[i].state)
      && s1.proveTasks[i].failureCount == s.proveTasks[i].failureCount + if s1.isError then 0 else 1
  {
  }

  lemma {:induction false} AggAnswerCounts(s: StageState, m: AggTask, now: nat)
    ensures var s1, hit := OnAgg(s, m, now), FirstWhere(s.aggTasks, RunningAgg(m.taskId)) < |s.aggTasks|;
      if hit && Decisive(m.state) then s1.isError || Remaining(s1) < Remaining(s)
      else Remaining(s1) == Remaining(s) && s1.isError == s.isError
  {
    var p := FirstWhere(s.aggTasks, RunningAgg(m.taskId));
    var s1 := AcceptAgg(s, m, now);
    ClearAggCount(s1.aggTasks, m.taskId);
    if p < |s.aggTasks| && Accepted(m.state) {
      CountWhereUpdate(s.aggTasks, p, s1.aggTasks[p], AggNotIn(Success));
    }
  }

  lemma {:induction false} AttemptsBound(ts: seq<ProveTask>)
    ensures ProveAttempts(ts) <= (MAX_FAILURES + 1) * |ts|
  {
    if ts != [] {
      AttemptsBound(ts[1..]);
    }
  }

  lemma {:induction false} CountBound<T>(xs: seq<T>, p: T -> bool)
    ensures CountWhere(xs, p) <= |xs|
  {
    if xs != [] {
      CountBound(xs[1..], p);
    }
  }
}
