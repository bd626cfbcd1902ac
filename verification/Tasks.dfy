/** The tasks a stage hands out and gets back (stage/tasks/). */
module Tasks {
  import opened Receipts

  datatype Option<+T> = None | Some(value: T)

  // A version-4 UUID.  The program only ever compares identifiers for equality.
  type TaskId = nat

  datatype TaskState = Initial | Unprocessed | Processing | Success | Failed

  datatype Trace = Trace(startTs: nat, finishTs: nat, nodeInfo: string) {
    /** finish_ts - start_ts on unsigned integers: subtracting needs this to hold. */
    predicate Ordered() {
      startTs <= finishTs
    }
  }

  const NO_TRACE := Trace(0, 0, "")

  datatype SplitTask = SplitTask(
    taskId: TaskId, state: TaskState, trace: Trace, output: Receipt, totalSteps: nat, totalSegments: nat)

  datatype ProveTask = ProveTask(
    taskId: TaskId, state: TaskState, fileNo: nat, isDeferred: bool,
    output: Receipt, trace: Trace, failureCount: nat)

  datatype AggregateInput = AggregateInput(receiptInput: Receipt, computedRequestId: TaskId, isAgg: bool)

  datatype AggTask = AggTask(
    taskId: TaskId, state: TaskState, inputs: seq<AggregateInput>, isFinal: bool, isFirstShard: bool,
    isLeafLayer: bool, fromProve: bool, aggIndex: nat, isDeferred: bool, trace: Trace, output: Receipt,
    childs: seq<Option<TaskId>>)

  datatype SnarkTask = SnarkTask(
    taskId: TaskId, state: TaskState, aggReceipt: Receipt, fromInput: bool, output: Receipt, trace: Trace)

  const DEFAULT_SPLIT := SplitTask(0, Initial, NO_TRACE, EMPTY, 0, 0)
  const DEFAULT_SNARK := SnarkTask(0, Initial, EMPTY, false, EMPTY, NO_TRACE)

  /** A finished or bounced task that a get_* function may hand out (again). */
  predicate Ready(state: TaskState) {
    state == Unprocessed || state == Failed
  }

  predicate Unblocked(task: AggTask) {
    forall j :: 0 <= j < |task.childs| ==> task.childs[j].None?
  }

  predicate WaitsFor(task: AggTask, id: TaskId) {
    task.state == Unprocessed && Some(id) in task.childs
  }

  function FirstIndexOf(childs: seq<Option<TaskId>>, child: Option<TaskId>): (j: nat)
    requires child in childs
    ensures j < |childs| && childs[j] == child && child !in childs[..j]
  {
    if childs[0] == child then 0
    else
      var j := 1 + FirstIndexOf(childs[1..], child);
      assert childs[..j] == [childs[0]] + childs[1..][..j - 1];
      j
  }

  /** The task once told that the task named id is done: its first matching slot is emptied. */
  function Cleared(task: AggTask, id: TaskId): AggTask {
    if WaitsFor(task, id)
    then task.(childs := task.childs[FirstIndexOf(task.childs, Some(id)) := None])
    else task
  }

  method ClearChildTask(task: AggTask, id: TaskId) returns (task': AggTask, cleared: bool)
    ensures task' == Cleared(task, id)
    ensures cleared <==> WaitsFor(task, id)
  {
    task', cleared := task, false;
    if task.state == Unprocessed {
      var j := 0;
      while j < |task.childs|
        invariant 0 <= j <= |task.childs|
        invariant Some(id) !in task.childs[..j]
      {
        if task.childs[j] == Some(id) {
          assert j == FirstIndexOf(task.childs, Some(id));
          return task.(childs := task.childs[j := None]), true;
        }
        j := j + 1;
      }
      assert task.childs[..j] == task.childs;
    }
  }

  function FromProveTask(task: ProveTask): AggregateInput {
    AggregateInput(EMPTY, task.taskId, false)
  }

  function ToAggInput(task: AggTask): AggregateInput {
    AggregateInput(EMPTY, task.taskId, !task.fromProve)
  }

  function InitFromProveTasks(
    taskId: TaskId, proveTasks: seq<ProveTask>, aggIndex: nat, isFinal: bool, isFirstShard: bool, isDeferred: bool
  ): AggTask
    requires proveTasks != []
  {
    AggTask(
      taskId, Unprocessed, seq(|proveTasks|, i requires 0 <= i < |proveTasks| => FromProveTask(proveTasks[i])),
      isFinal, isFirstShard, true, false, aggIndex, isDeferred, NO_TRACE, EMPTY,
      if isDeferred then [] else seq(|proveTasks|, i requires 0 <= i < |proveTasks| => Some(proveTasks[i].taskId)))
  }

  function InitFromAggTasks(taskId: TaskId, aggTasks: seq<AggTask>, aggIndex: nat, isFinal: bool): AggTask
    requires aggTasks != []
  {
    AggTask(
      taskId, Unprocessed, seq(|aggTasks|, i requires 0 <= i < |aggTasks| => ToAggInput(aggTasks[i])),
      isFinal, false, false, false, aggIndex, false, NO_TRACE, EMPTY,
      seq(|aggTasks|, i requires 0 <= i < |aggTasks| => Some(aggTasks[i].taskId)))
  }

  /** The first position whose element satisfies p, or the length. */
  function FirstWhere<T>(xs: seq<T>, p: T -> bool): (i: nat)
    ensures i <= |xs| && (i < |xs| ==> p(xs[i]))
    ensures forall k :: 0 <= k < i ==> !p(xs[k])
  {
    if xs == [] then 0 else if p(xs[0]) then 0 else 1 + FirstWhere(xs[1..], p)
  }

  lemma FirstWhereIs<T>(xs: seq<T>, p: T -> bool, i: nat)
    requires i <= |xs| && (i < |xs| ==> p(xs[i]))
    requires forall k :: 0 <= k < i ==> !p(xs[k])
    ensures FirstWhere(xs, p) == i
  {
  }

  function CountWhere<T>(xs: seq<T>, p: T -> bool): nat {
    if xs == [] then 0 else (if p(xs[0]) then 1 else 0) + CountWhere(xs[1..], p)
  }

  lemma {:induction false} CountWhereConcat<T>(xs: seq<T>, ys: seq<T>, p: T -> bool)
    ensures CountWhere(xs + ys, p) == CountWhere(xs, p) + CountWhere(ys, p)
  {
    if xs == [] {
      assert xs + ys == ys;
    } else {
      assert (xs + ys)[1..] == xs[1..] + ys;
      CountWhereConcat(xs[1..], ys, p);
    }
  }

  lemma {:induction false} CountWhereUpdate<T>(xs: seq<T>, i: nat, x: T, p: T -> bool)
    requires i < |xs|
    ensures CountWhere(xs[i := x], p)
         == CountWhere(xs, p) - (if p(xs[i]) then 1 else 0) + (if p(x) then 1 else 0)
  {
    if i > 0 {
      assert xs[i := x][1..] == xs[1..][i - 1 := x];
      CountWhereUpdate(xs[1..], i - 1, x, p);
    } else {
      assert xs[i := x][1..] == xs[1..];
    }
  }

  lemma {:induction false} CountWhereNone<T>(xs: seq<T>, p: T -> bool)
    ensures CountWhere(xs, p) == 0 <==> forall k :: 0 <= k < |xs| ==> !p(xs[k])
  {
    if xs != [] {
      CountWhereNone(xs[1..], p);
      assert forall k :: 1 <= k < |xs| ==> xs[k] == xs[1..][k - 1];
    }
  }

  lemma Regroup<T>(xs: seq<T>, ys: seq<T>, zs: seq<T>)
    ensures xs + (ys + zs) == (xs + ys) + zs
  {
  }
}
