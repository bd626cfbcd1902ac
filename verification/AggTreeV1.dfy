/** The first-generation aggregation tree (stage/stage.rs and tasks/agg_task.rs, feature
    "prover"): pairs of prove tasks, an odd one standing for itself, then pairs of pairs
    with the odd one carried over. */
module AggTreeV1 {
  import opened Receipts
  import opened Tasks

  function InitFromTwoProveTask(id: TaskId, left: ProveTask, right: ProveTask, aggIndex: nat): AggTask {
    AggTask(
      id, Unprocessed, [FromProveTask(left), FromProveTask(right)], false, false, false, false, aggIndex, false,
      NO_TRACE, EMPTY, [Some(left.taskId), Some(right.taskId)])
  }

  /** A placeholder: it carries the prove task's identifier and counts as done. */
  function InitFromSingleProveTask(task: ProveTask, aggIndex: nat): AggTask {
    AggTask(task.taskId, Success, [], false, false, false, true, aggIndex, false, NO_TRACE, EMPTY, [])
  }

  function InitFromTwoAggTask(id: TaskId, left: AggTask, right: AggTask, aggIndex: nat): AggTask {
    AggTask(
      id, Unprocessed, [ToAggInput(left), ToAggInput(right)], false, false, false, false, aggIndex, false,
      NO_TRACE, EMPTY, [Some(left.taskId), Some(right.taskId)])
  }

  // What each loop makes

  function ProvePairs(ts: seq<ProveTask>, id: TaskId, m: nat): (r: seq<AggTask>)
    requires 2 * m <= |ts|
    ensures |r| == m
  {
    seq(m, j requires 0 <= j < m => InitFromTwoProveTask(id + j, ts[2 * j], ts[2 * j + 1], j + 1))
  }

  function OddProve(ts: seq<ProveTask>): seq<AggTask> {
    if |ts| % 2 == 1 then [InitFromSingleProveTask(ts[|ts| - 1], |ts| / 2 + 1)] else []
  }

  function FirstLayer(ts: seq<ProveTask>, id: TaskId): (r: seq<AggTask>)
    ensures |r| == (|ts| + 1) / 2
  {
    ProvePairs(ts, id, |ts| / 2) + OddProve(ts)
  }

  function AggPairs(layer: seq<AggTask>, id: TaskId, aggIndex: nat, m: nat): (r: seq<AggTask>)
    requires 2 * m <= |layer|
    ensures |r| == m
  {
    if m == 0 then []
    else AggPairs(layer, id, aggIndex, m - 1) + [AggPairAt(layer, id, aggIndex, m - 1)]
  }

  function AggPairAt(layer: seq<AggTask>, id: TaskId, aggIndex: nat, j: nat): AggTask
    requires 2 * j + 1 < |layer|
  {
    InitFromTwoAggTask(id + j, layer[2 * j], layer[2 * j + 1], aggIndex + j + 1)
  }

  lemma {:induction false} AggPairsAt(layer: seq<AggTask>, id: TaskId, aggIndex: nat, m: nat, j: nat)
    requires 2 * m <= |layer| && j < m
    ensures AggPairs(layer, id, aggIndex, m)[j] == AggPairAt(layer, id, aggIndex, j)
  {
    if j < m - 1 {
      AggPairsAt(layer, id, aggIndex, m - 1, j);
    }
  }

  function Carried(layer: seq<AggTask>): seq<AggTask> {
    if |layer| % 2 == 1 then [layer[|layer| - 1]] else []
  }

  /** All pairs of a layer. */
  function Paired(layer: seq<AggTask>, id: TaskId, aggIndex: nat): (r: seq<AggTask>)
    ensures |r| == |layer| / 2
  {
    AggPairs(layer, id, aggIndex, |layer| / 2)
  }

  function NextLayer(layer: seq<AggTask>, id: TaskId, aggIndex: nat): (r: seq<AggTask>)
    ensures |r| == (|layer| + 1) / 2
  {
    Paired(layer, id, aggIndex) + Carried(layer)
  }

  function UpperLayers(layer: seq<AggTask>, id: TaskId, aggIndex: nat): seq<AggTask>
    decreases |layer|
  {
    if |layer| <= 1 then []
    else
      Paired(layer, id, aggIndex)
      + UpperLayers(NextLayer(layer, id, aggIndex), id + |layer| / 2, aggIndex + |layer| / 2)
  }

  /** The list before its last entry is marked final. */
  function TreeV1(ts: seq<ProveTask>, id: TaskId): seq<AggTask> {
    FirstLayer(ts, id) + UpperLayers(FirstLayer(ts, id), id + |ts| / 2, |ts| / 2)
  }

  function Finalized(aggs: seq<AggTask>): (r: seq<AggTask>)
    requires aggs != []
    ensures |r| == |aggs|
  {
    aggs[|aggs| - 1 := aggs[|aggs| - 1].(isFinal := true)]
  }

  /** The part of a v1 stage that gen_agg_tasks reads and writes. */
  class StageV1 {
    var proveTasks: seq<ProveTask>
    var aggTasks: seq<AggTask>
    var nextId: TaskId

    constructor (proveTasks: seq<ProveTask>, nextId: TaskId)
      ensures this.proveTasks == proveTasks && aggTasks == [] && this.nextId == nextId
    {
      this.proveTasks, aggTasks, this.nextId := proveTasks, [], nextId;
    }

    method NewId() returns (id: TaskId)
      modifies this
      ensures id == old(nextId) && nextId == id + 1
      ensures proveTasks == old(proveTasks) && aggTasks == old(aggTasks)
    {
      id := nextId;
      nextId := nextId + 1;
    }

    /** current_length - 1 underflows on an empty list, and the source panics. */
    method GenAggTasks()
      requires proveTasks != []
      modifies this
      ensures proveTasks == old(proveTasks)
      ensures aggTasks == Finalized(old(aggTasks) + TreeV1(proveTasks, old(nextId)))
    {
      GenLayers();
      aggTasks := aggTasks[|aggTasks| - 1 := aggTasks[|aggTasks| - 1].(isFinal := true)];
    }

    method GenLayers()
      requires proveTasks != []
      modifies this
      ensures proveTasks == old(proveTasks)
      ensures aggTasks == old(aggTasks) + TreeV1(proveTasks, old(nextId)) && aggTasks != []
    {
      var result, aggIndex := GenFirstLayer();
      ghost var upper := UpperLayers(result, nextId, aggIndex);
      aggTasks := aggTasks + result;
      GenUpperLayers(result, aggIndex);
      Regroup(old(aggTasks), result, upper);
    }

    method GenFirstLayer() returns (result: seq<AggTask>, aggIndex: nat)
      requires proveTasks != []
      modifies this
      ensures result == FirstLayer(proveTasks, old(nextId)) && aggIndex == |proveTasks| / 2
      ensures proveTasks == old(proveTasks) && aggTasks == old(aggTasks) && nextId == old(nextId) + aggIndex
    {
      result, aggIndex := [], 0;
      var i := 0;
      while i < |proveTasks| - 1
        invariant i == 2 * aggIndex <= |proveTasks| && result == ProvePairs(proveTasks, old(nextId), aggIndex)
        invariant proveTasks == old(proveTasks) && aggTasks == old(aggTasks) && nextId == old(nextId) + aggIndex
      {
        var id := NewId();
        aggIndex := aggIndex + 1;
        result := result + [InitFromTwoProveTask(id, proveTasks[i], proveTasks[i + 1], aggIndex)];
        i := i + 2;
      }
      if |proveTasks| % 2 == 1 {
        result := result + [InitFromSingleProveTask(proveTasks[|proveTasks| - 1], aggIndex + 1)];
      }
    }

    method GenUpperLayers(first: seq<AggTask>, index: nat)
      modifies this
      ensures proveTasks == old(proveTasks)
      ensures aggTasks == old(aggTasks) + UpperLayers(first, old(nextId), index)
    {
      var result, aggIndex: nat := first, index;
      ghost var done: seq<AggTask> := [];
      while |result| > 1
        invariant proveTasks == old(proveTasks) && aggTasks == old(aggTasks) + done
        invariant done + UpperLayers(result, nextId, aggIndex) == UpperLayers(first, old(nextId), index)
        decreases |result|
      {
        ghost var next := Paired(result, nextId, aggIndex);
        var layer := GenNextLayer(result, aggIndex);
        Regroup(done, next, UpperLayers(layer, nextId, aggIndex + |result| / 2));
        Regroup(old(aggTasks), done, next);
        done := done + next;
        result, aggIndex := layer, aggIndex + |result| / 2;
      }
      assert done == UpperLayers(first, old(nextId), index);
    }

    /** The pairs go into the list, the odd entry only into the new layer. */
    method GenNextLayer(result: seq<AggTask>, index: nat) returns (layer: seq<AggTask>)
      modifies this
      ensures layer == NextLayer(result, old(nextId), index) && proveTasks == old(proveTasks)
      ensures aggTasks == old(aggTasks) + Paired(result, old(nextId), index) && nextId == old(nextId) + |result| / 2
    {
      layer := GenPairs(result, index);
      if |result| % 2 == 1 {
        layer := layer + [result[|result| - 1]];
      }
    }

    method GenPairs(result: seq<AggTask>, index: nat) returns (next: seq<AggTask>)
      modifies this
      ensures next == AggPairs(result, old(nextId), index, |result| / 2)
      ensures proveTasks == old(proveTasks) && aggTasks == old(aggTasks) + next && nextId == old(nextId) + |next|
    {
      next := [];
      var i := 0;
      while i < |result| - 1
        invariant i == 2 * |next| && i <= |result| && next == AggPairs(result, old(nextId), index, |next|)
        invariant proveTasks == old(proveTasks) && aggTasks == old(aggTasks) + next && nextId == old(nextId) + |next|
      {
        var id := NewId();
        var task := InitFromTwoAggTask(id, result[i], result[i + 1], index + |next| + 1);
        aggTasks := aggTasks + [task];
        next := next + [task];
        i := i + 2;
      }
    }
  }

  // Size

  lemma {:induction false} UpperSize(layer: seq<AggTask>, id: TaskId, aggIndex: nat)
    requires layer != []
    ensures |UpperLayers(layer, id, aggIndex)| == |layer| - 1
    decreases |layer|
  {
    if |layer| > 1 {
      UpperSize(NextLayer(layer, id, aggIndex), id + |layer| / 2, aggIndex + |layer| / 2);
    }
  }

  /** The list has 2 * ceil(n/2) - 1 entries, so never more than prove tasks. */
  lemma {:induction false} TreeSize(ts: seq<ProveTask>, id: TaskId)
    requires ts != []
    ensures |TreeV1(ts, id)| == 2 * ((|ts| + 1) / 2) - 1 <= |ts|
  {
    UpperSize(FirstLayer(ts, id), id + |ts| / 2, |ts| / 2);
  }

  // Shape

  predicate Binary(t: AggTask) {
    && t.state == Unprocessed && !t.fromProve && |t.inputs| == |t.childs| == 2
    && t.childs == [Some(t.inputs[0].computedRequestId), Some(t.inputs[1].computedRequestId)]
    && !t.isFirstShard && !t.isLeafLayer && !t.isDeferred
  }

  /** The entry that stands for an odd prove task: done from the start, with its name. */
  predicate Placeholder(t: AggTask, task: ProveTask, aggIndex: nat) {
    && t.state == Success && t.fromProve && t.inputs == [] && t.childs == [] && !t.isFinal
    && t.taskId == task.taskId && t.aggIndex == aggIndex
  }

  /** A task over two others that got identifier id and the given agg_index. */
  predicate PairTask(t: AggTask, id: TaskId, aggIndex: nat) {
    Binary(t) && t.taskId == id && t.aggIndex == aggIndex && !t.isFinal
  }

  lemma {:induction false} PairedTask(layer: seq<AggTask>, id: TaskId, aggIndex: nat, p: nat)
    requires p < |layer| / 2
    ensures PairTask(Paired(layer, id, aggIndex)[p], id + p, aggIndex + p + 1)
  {
    AggPairsAt(layer, id, aggIndex, |layer| / 2, p);
  }

  lemma {:induction false} UpperTask(layer: seq<AggTask>, id: TaskId, aggIndex: nat, p: nat)
    requires p < |UpperLayers(layer, id, aggIndex)|
    ensures PairTask(UpperLayers(layer, id, aggIndex)[p], id + p, aggIndex + p + 1)
    decreases |layer|
  {
    var half := |layer| / 2;
    if p < half {
      PairedTask(layer, id, aggIndex, p);
    } else {
      UpperTask(NextLayer(layer, id, aggIndex), id + half, aggIndex + half, p - half);
    }
  }

  /** Every entry aggregates two others, except the placeholder of an odd prove task. */
  lemma {:induction false} TreeBinary(ts: seq<ProveTask>, id: TaskId, p: nat)
    requires p < |TreeV1(ts, id)|
    ensures var t := TreeV1(ts, id)[p];
      if |ts| % 2 == 1 && p == |ts| / 2 then Placeholder(t, ts[|ts| - 1], p + 1) else Binary(t)
  {
    var first := FirstLayer(ts, id);
    if p >= |first| {
      UpperTask(first, id + |ts| / 2, |ts| / 2, p - |first|);
    }
  }

  /** The input is what one of the first k entries contributes. */
  ghost predicate FromEntry(aggs: seq<AggTask>, k: nat, input: AggregateInput) {
    exists q :: 0 <= q < k && q < |aggs| && input == ToAggInput(aggs[q])
  }

  /** Entries of the next layer and above stand in the list as well, shifted. */
  lemma ShiftedEntry(layer: seq<AggTask>, next: seq<AggTask>, rest: seq<AggTask>, k: nat, input: AggregateInput)
    requires FromEntry(next + Carried(layer) + rest, |next + Carried(layer)| + k, input)
    ensures FromEntry(layer + (next + rest), |layer| + |next| + k, input)
  {
    var carried := Carried(layer);
    var all := next + carried + rest;
    var q :| 0 <= q < |next + carried| + k && q < |all| && input == ToAggInput(all[q]);
    var q' := if q < |next| then |layer| + q else if q < |next + carried| then |layer| - 1 else |layer| + q - |carried|;
    assert (layer + (next + rest))[q'] == all[q];
  }

  lemma {:induction false} PairInputs(layer: seq<AggTask>, id: TaskId, aggIndex: nat, rest: seq<AggTask>, p: nat, j: nat)
    requires p < |layer| / 2 && j < |Paired(layer, id, aggIndex)[p].inputs|
    ensures FromEntry(
      layer + (Paired(layer, id, aggIndex) + rest), |layer| + p,
      Paired(layer, id, aggIndex)[p].inputs[j])
  {
    var next := Paired(layer, id, aggIndex);
    AggPairsAt(layer, id, aggIndex, |layer| / 2, p);
    assert (layer + (next + rest))[2 * p + j] == layer[2 * p + j];
  }

  /** The inputs of the tasks over a layer come from that layer and earlier entries. */
  lemma {:induction false} UpperInputs(layer: seq<AggTask>, id: TaskId, aggIndex: nat, p: nat, j: nat)
    requires p < |UpperLayers(layer, id, aggIndex)| && j < |UpperLayers(layer, id, aggIndex)[p].inputs|
    ensures var upper := UpperLayers(layer, id, aggIndex);
      FromEntry(layer + upper, |layer| + p, upper[p].inputs[j])
    decreases |layer|
  {
    var next := Paired(layer, id, aggIndex);
    var rest := UpperLayers(NextLayer(layer, id, aggIndex), id + |layer| / 2, aggIndex + |layer| / 2);
    UpperTask(layer, id, aggIndex, p);
    if p < |next| {
      PairInputs(layer, id, aggIndex, rest, p, j);
    } else {
      UpperInputs(NextLayer(layer, id, aggIndex), id + |layer| / 2, aggIndex + |layer| / 2, p - |next|, j);
      ShiftedEntry(layer, next, rest, p - |next|, rest[p - |next|].inputs[j]);
    }
  }

  ghost predicate NamesProve(ts: seq<ProveTask>, input: AggregateInput) {
    !input.isAgg && exists i :: 0 <= i < |ts| && ts[i].taskId == input.computedRequestId
  }

  ghost predicate NamesAgg(aggs: seq<AggTask>, input: AggregateInput) {
    input.isAgg && exists q :: 0 <= q < |aggs| && aggs[q].taskId == input.computedRequestId && !aggs[q].fromProve
  }

  lemma {:induction false} FirstInputs(ts: seq<ProveTask>, id: TaskId, p: nat, j: nat)
    requires p < |FirstLayer(ts, id)| && j < |FirstLayer(ts, id)[p].inputs|
    ensures NamesProve(ts, FirstLayer(ts, id)[p].inputs[j])
  {
    if p < |ts| / 2 {
      assert FirstLayer(ts, id)[p].inputs[j].computedRequestId == ts[2 * p + j].taskId;
    }
  }

  /** Every input names a prove task, or an earlier entry that really aggregates. */
  lemma {:induction false} TreeInputs(ts: seq<ProveTask>, id: TaskId, p: nat, j: nat)
    requires p < |TreeV1(ts, id)| && j < |TreeV1(ts, id)[p].inputs|
    ensures var tree := TreeV1(ts, id); NamesProve(ts, tree[p].inputs[j]) || NamesAgg(tree[..p], tree[p].inputs[j])
  {
    var first, tree := FirstLayer(ts, id), TreeV1(ts, id);
    if p < |first| {
      FirstInputs(ts, id, p, j);
    } else {
      UpperInputs(first, id + |ts| / 2, |ts| / 2, p - |first|, j);
      var q :| 0 <= q < p && tree[p].inputs[j] == ToAggInput(tree[q]);
      NamesOf(ts, id, p, q);
    }
  }

  lemma {:induction false} NamesOf(ts: seq<ProveTask>, id: TaskId, p: nat, q: nat)
    requires q < p < |TreeV1(ts, id)|
    ensures var tree := TreeV1(ts, id); NamesProve(ts, ToAggInput(tree[q])) || NamesAgg(tree[..p], ToAggInput(tree[q]))
  {
    var tree := TreeV1(ts, id);
    TreeBinary(ts, id, q);
    assert tree[..p][q] == tree[q];
  }

  // Meaning

  /** val reads t as the aggregate of what it reads t's inputs as. */
  predicate Means(t: AggTask, val: TaskId -> Receipt) {
    t.fromProve || val(t.taskId) == Aggregate(seq(|t.inputs|, j requires 0 <= j < |t.inputs| =>
      val(t.inputs[j].computedRequestId)))
  }

  ghost predicate AllMean(aggs: seq<AggTask>, val: TaskId -> Receipt) {
    forall p :: 0 <= p < |aggs| ==> Means(aggs[p], val)
  }

  function Read(aggs: seq<AggTask>, val: TaskId -> Receipt): (rs: seq<Receipt>)
    ensures |rs| == |aggs|
  {
    seq(|aggs|, p requires 0 <= p < |aggs| => val(aggs[p].taskId))
  }

  function ReadProves(ts: seq<ProveTask>, val: TaskId -> Receipt): (rs: seq<Receipt>)
    ensures |rs| == |ts|
  {
    seq(|ts|, i requires 0 <= i < |ts| => val(ts[i].taskId))
  }

  /** Pairing an even number of neighbours, and keeping the odd one, keeps the leaves. */
  lemma {:induction false} PairedLeaves(xs: seq<Receipt>, ys: seq<Receipt>)
    requires |ys| == (|xs| + 1) / 2
    requires forall j :: 0 <= j < |xs| / 2 ==> ys[j] == Aggregate([xs[2 * j], xs[2 * j + 1]])
    requires |xs| % 2 == 1 ==> ys[|ys| - 1] == xs[|xs| - 1]
    ensures LeavesOf(ys) == LeavesOf(xs)
  {
    if |xs| == 1 {
      assert xs == ys;
    } else if |xs| > 1 {
      var xs', ys' := xs[2..], ys[1..];
      forall j | 0 <= j < |xs'| / 2
        ensures ys'[j] == Aggregate([xs'[2 * j], xs'[2 * j + 1]])
      {
        assert ys'[j] == ys[j + 1];
        assert xs'[2 * j] == xs[2 * (j + 1)];
      }
      PairedLeaves(xs', ys');
      assert ys[0] == Aggregate([xs[2 * 0], xs[2 * 0 + 1]]);
      assert xs == [xs[0], xs[1]] + xs';
      LeavesOfConcat([xs[0], xs[1]], xs');
    }
  }

  lemma {:induction false} NextLayerReads(layer: seq<AggTask>, id: TaskId, aggIndex: nat, val: TaskId -> Receipt)
    requires AllMean(Paired(layer, id, aggIndex), val)
    ensures LeavesOf(Read(NextLayer(layer, id, aggIndex), val)) == LeavesOf(Read(layer, val))
  {
    var next, xs := Paired(layer, id, aggIndex), Read(layer, val);
    var ys := Read(NextLayer(layer, id, aggIndex), val);
    forall j | 0 <= j < |xs| / 2
      ensures ys[j] == Aggregate([xs[2 * j], xs[2 * j + 1]])
    {
      AggPairsAt(layer, id, aggIndex, |layer| / 2, j);
      assert Means(next[j], val);
      assert val(next[j].taskId).inputs == [xs[2 * j], xs[2 * j + 1]];
    }
    PairedLeaves(xs, ys);
  }

  /** The entry the loops end with. */
  function Top(layer: seq<AggTask>, id: TaskId, aggIndex: nat): AggTask
    requires layer != []
    decreases |layer|
  {
    if |layer| == 1 then layer[0]
    else Top(NextLayer(layer, id, aggIndex), id + |layer| / 2, aggIndex + |layer| / 2)
  }

  function Last(aggs: seq<AggTask>): AggTask
    requires aggs != []
  {
    aggs[|aggs| - 1]
  }

  lemma LastOfParts(layer: seq<AggTask>, pairs: seq<AggTask>, next: seq<AggTask>, rest: seq<AggTask>, top: AggTask)
    requires pairs != [] && next == pairs + Carried(layer) && |rest| == |next| - 1 && Last(next + rest) == top
    ensures Last(layer + (pairs + rest)) == top
  {
  }

  /** It is the last one of the list. */
  lemma {:induction false} TopIsLast(layer: seq<AggTask>, id: TaskId, aggIndex: nat)
    requires layer != []
    ensures Last(layer + UpperLayers(layer, id, aggIndex)) == Top(layer, id, aggIndex)
    decreases |layer|
  {
    if |layer| > 1 {
      var next, id', index' := NextLayer(layer, id, aggIndex), id + |layer| / 2, aggIndex + |layer| / 2;
      UpperSize(next, id', index');
      TopIsLast(next, id', index');
      LastOfParts(layer, Paired(layer, id, aggIndex), next, UpperLayers(next, id', index'), Top(next, id', index'));
    } else {
      assert layer + UpperLayers(layer, id, aggIndex) == layer;
    }
  }

  lemma AllMeanParts(xs: seq<AggTask>, ys: seq<AggTask>, val: TaskId -> Receipt)
    requires AllMean(xs + ys, val)
    ensures AllMean(xs, val) && AllMean(ys, val)
  {
    assert forall p :: 0 <= p < |xs| ==> xs[p] == (xs + ys)[p];
    assert forall p :: 0 <= p < |ys| ==> ys[p] == (xs + ys)[|xs| + p];
  }

  /** The pairs of this layer and of all those above it mean what they should. */
  ghost predicate LayersMean(layer: seq<AggTask>, id: TaskId, aggIndex: nat, val: TaskId -> Receipt)
    decreases |layer|
  {
    |layer| <= 1 ||
    (AllMean(Paired(layer, id, aggIndex), val)
     && LayersMean(NextLayer(layer, id, aggIndex), id + |layer| / 2, aggIndex + |layer| / 2, val))
  }

  lemma {:induction false} ListMeansLayersMean(layer: seq<AggTask>, id: TaskId, aggIndex: nat, val: TaskId -> Receipt)
    requires AllMean(UpperLayers(layer, id, aggIndex), val)
    ensures LayersMean(layer, id, aggIndex, val)
    decreases |layer|
  {
    if |layer| > 1 {
      var next, half := NextLayer(layer, id, aggIndex), |layer| / 2;
      AllMeanParts(Paired(layer, id, aggIndex), UpperLayers(next, id + half, aggIndex + half), val);
      ListMeansLayersMean(next, id + half, aggIndex + half, val);
    }
  }

  lemma SingleRead(t: AggTask, val: TaskId -> Receipt)
    ensures LeavesOf(Read([t], val)) == Leaves(val(t.taskId))
  {
    assert Read([t], val)[1..] == [];
  }

  lemma {:induction false} TopReads(layer: seq<AggTask>, id: TaskId, aggIndex: nat, val: TaskId -> Receipt)
    requires layer != [] && LayersMean(layer, id, aggIndex, val)
    ensures Leaves(val(Top(layer, id, aggIndex).taskId)) == LeavesOf(Read(layer, val))
    decreases |layer|
  {
    if |layer| == 1 {
      SingleRead(layer[0], val);
      assert layer == [layer[0]];
    } else {
      NextLayerReads(layer, id, aggIndex, val);
      TopReads(NextLayer(layer, id, aggIndex), id + |layer| / 2, aggIndex + |layer| / 2, val);
    }
  }

  lemma {:induction false} FirstLayerReads(ts: seq<ProveTask>, id: TaskId, val: TaskId -> Receipt)
    requires AllMean(FirstLayer(ts, id), val)
    ensures LeavesOf(Read(FirstLayer(ts, id), val)) == LeavesOf(ReadProves(ts, val))
  {
    var first, xs := FirstLayer(ts, id), ReadProves(ts, val);
    var ys := Read(first, val);
    forall j | 0 <= j < |xs| / 2
      ensures ys[j] == Aggregate([xs[2 * j], xs[2 * j + 1]])
    {
      assert first[j] == ProvePairs(ts, id, |ts| / 2)[j];
      assert Means(first[j], val);
      assert val(first[j].taskId).inputs == [xs[2 * j], xs[2 * j + 1]];
    }
    PairedLeaves(xs, ys);
  }

  lemma {:induction false} ListReads(layer: seq<AggTask>, id: TaskId, aggIndex: nat, val: TaskId -> Receipt)
    requires layer != [] && AllMean(layer + UpperLayers(layer, id, aggIndex), val)
    ensures AllMean(layer, val)
    ensures Leaves(val(Last(layer + UpperLayers(layer, id, aggIndex)).taskId)) == LeavesOf(Read(layer, val))
  {
    AllMeanParts(layer, UpperLayers(layer, id, aggIndex), val);
    ListMeansLayersMean(layer, id, aggIndex, val);
    TopReads(layer, id, aggIndex, val);
    TopIsLast(layer, id, aggIndex);
  }

  /** However identifiers are read as receipts, as long as every entry of the list is read
      as the aggregate of its inputs: the last entry has the leaves of all prove tasks, in
      order, each once. */
  lemma {:induction false} RootReadsAll(ts: seq<ProveTask>, id: TaskId, val: TaskId -> Receipt)
    requires ts != [] && AllMean(TreeV1(ts, id), val)
    ensures TreeV1(ts, id) != []
    ensures Leaves(val(Last(TreeV1(ts, id)).taskId)) == LeavesOf(ReadProves(ts, val))
  {
    ListReads(FirstLayer(ts, id), id + |ts| / 2, |ts| / 2, val);
    FirstLayerReads(ts, id, val);
  }

  // Such a reading exists

  /** The prove tasks' identifiers were given out before the tree's. */
  predicate NumberedBelow(ts: seq<ProveTask>, id: TaskId) {
    forall i :: 0 <= i < |ts| ==> ts[i].taskId < id
  }

  /** The list position of the entry with identifier x, the placeholder being skipped. */
  function PositionOf(n: nat, id: TaskId, x: TaskId): nat
    requires id <= x
  {
    if x - id < n / 2 then x - id else x - id + n % 2
  }

  /** Entry p has identifier x, which leads back to p. */
  predicate NumberedAt(t: AggTask, n: nat, id: TaskId, p: nat) {
    && !t.fromProve && t.taskId == id + (if n % 2 == 1 && p > n / 2 then p - 1 else p)
    && PositionOf(n, id, t.taskId) == p
  }

  lemma {:induction false} FirstEntryId(ts: seq<ProveTask>, id: TaskId, p: nat)
    requires p < |ts| / 2
    ensures NumberedAt(FirstLayer(ts, id)[p], |ts|, id, p)
  {
  }

  lemma {:induction false} UpperEntryId(n: nat, id: TaskId, layer: seq<AggTask>, p: nat)
    requires p < |UpperLayers(layer, id + n / 2, n / 2)|
    ensures NumberedAt(UpperLayers(layer, id + n / 2, n / 2)[p], n, id, (n + 1) / 2 + p)
  {
    UpperTask(layer, id + n / 2, n / 2, p);
  }

  /** The identifiers of the entries that aggregate go up with the position. */
  lemma {:induction false} EntryId(ts: seq<ProveTask>, id: TaskId, p: nat)
    requires p < |TreeV1(ts, id)| && !(|ts| % 2 == 1 && p == |ts| / 2)
    ensures NumberedAt(TreeV1(ts, id)[p], |ts|, id, p)
  {
    var first := FirstLayer(ts, id);
    if p >= |first| {
      UpperEntryId(|ts|, id, first, p - |first|);
    } else {
      FirstEntryId(ts, id, p);
    }
  }

  lemma {:induction false} InputBelow(ts: seq<ProveTask>, id: TaskId, p: nat, j: nat)
    requires NumberedBelow(ts, id) && p < |TreeV1(ts, id)| && j < |TreeV1(ts, id)[p].inputs|
    ensures !(|ts| % 2 == 1 && p == |ts| / 2)
    ensures TreeV1(ts, id)[p].inputs[j].computedRequestId < TreeV1(ts, id)[p].taskId
  {
    var tree := TreeV1(ts, id);
    TreeBinary(ts, id, p);
    EntryId(ts, id, p);
    TreeInputs(ts, id, p, j);
    if NamesAgg(tree[..p], tree[p].inputs[j]) {
      var q :| 0 <= q < p && tree[..p][q].taskId == tree[p].inputs[j].computedRequestId && !tree[..p][q].fromProve;
      TreeBinary(ts, id, q);
      EntryId(ts, id, q);
    }
  }

  /** What the task or entry with identifier x stands for, when the prove tasks stand for
      what leaf says. */
  function EntryReceipt(ts: seq<ProveTask>, id: TaskId, leaf: TaskId -> Receipt, x: TaskId): Receipt
    requires NumberedBelow(ts, id)
    decreases x
  {
    if x < id then leaf(x)
    else if PositionOf(|ts|, id, x) >= |TreeV1(ts, id)| then EMPTY
    else
      var p := PositionOf(|ts|, id, x);
      var inputs := TreeV1(ts, id)[p].inputs;
      Aggregate(seq(|inputs|, j requires 0 <= j < |inputs| => (
        InputBelow(ts, id, p, j); EntryId(ts, id, p);
        EntryReceipt(ts, id, leaf, inputs[j].computedRequestId))))
  }

  function Reading(ts: seq<ProveTask>, id: TaskId, leaf: TaskId -> Receipt): TaskId -> Receipt
    requires NumberedBelow(ts, id)
  {
    (x: TaskId) => EntryReceipt(ts, id, leaf, x)
  }

  lemma {:induction false} ReadingMeans(ts: seq<ProveTask>, id: TaskId, leaf: TaskId -> Receipt)
    requires NumberedBelow(ts, id)
    ensures AllMean(TreeV1(ts, id), Reading(ts, id, leaf))
  {
    var tree := TreeV1(ts, id);
    forall p | 0 <= p < |tree|
      ensures Means(tree[p], Reading(ts, id, leaf))
    {
      TreeBinary(ts, id, p);
      if !(|ts| % 2 == 1 && p == |ts| / 2) {
        EntryId(ts, id, p);
        EntryMeans(ts, id, leaf, p);
      }
    }
  }

  lemma {:induction false} EntryMeans(ts: seq<ProveTask>, id: TaskId, leaf: TaskId -> Receipt, p: nat)
    requires NumberedBelow(ts, id) && p < |TreeV1(ts, id)| && TreeV1(ts, id)[p].taskId >= id
    requires PositionOf(|ts|, id, TreeV1(ts, id)[p].taskId) == p
    ensures Means(TreeV1(ts, id)[p], Reading(ts, id, leaf))
  {
  }

  /** With one receipt per prove task, the last entry stands for the aggregate of all of
      them, in order, each once. */
  lemma {:induction false} RootAggregatesAll(ts: seq<ProveTask>, id: TaskId, leaf: TaskId -> Receipt)
    requires ts != [] && NumberedBelow(ts, id)
    requires forall i :: 0 <= i < |ts| ==> IsLeaf(leaf(ts[i].taskId))
    ensures TreeV1(ts, id) != []
    ensures Leaves(EntryReceipt(ts, id, leaf, Last(TreeV1(ts, id)).taskId)) == ReadProves(ts, leaf)
  {
    ReadingMeans(ts, id, leaf);
    RootReadsAll(ts, id, Reading(ts, id, leaf));
    assert ReadProves(ts, Reading(ts, id, leaf)) == ReadProves(ts, leaf);
    LeavesOfLeaves(ReadProves(ts, leaf));
  }

  /** That last entry is the only one marked final. */
  lemma {:induction false} OnlyRootFinal(ts: seq<ProveTask>, id: TaskId)
    requires ts != []
    ensures TreeV1(ts, id) != []
    ensures var tree := Finalized(TreeV1(ts, id));
      forall p :: 0 <= p < |tree| ==> (tree[p].isFinal <==> p == |tree| - 1)
  {
    var tree := TreeV1(ts, id);
    TreeSize(ts, id);
    forall p | 0 <= p < |tree|
      ensures !tree[p].isFinal
    {
      NotFinalYet(ts, id, p);
    }
  }

  lemma {:induction false} FirstNotFinal(ts: seq<ProveTask>, id: TaskId, p: nat)
    requires p < |FirstLayer(ts, id)|
    ensures !FirstLayer(ts, id)[p].isFinal && FirstLayer(ts, id)[p].aggIndex == p + 1
  {
  }

  lemma {:induction false} NotFinalYet(ts: seq<ProveTask>, id: TaskId, p: nat)
    requires p < |TreeV1(ts, id)|
    ensures !TreeV1(ts, id)[p].isFinal
    ensures TreeV1(ts, id)[p].aggIndex == if |ts| % 2 == 1 && p > |ts| / 2 then p else p + 1
  {
    var first := FirstLayer(ts, id);
    if p >= |first| {
      UpperTask(first, id + |ts| / 2, |ts| / 2, p - |first|);
    } else {
      FirstNotFinal(ts, id, p);
    }
  }

  /** agg_index tells the entries apart exactly when no odd prove task is left over (or
      it is the only one): the placeholder's index is given out twice. */
  lemma {:induction false} IndicesDistinct(ts: seq<ProveTask>, id: TaskId)
    requires ts != []
    ensures var tree := TreeV1(ts, id);
      (forall p, q :: 0 <= p < q < |tree| ==> tree[p].aggIndex != tree[q].aggIndex) <==> |ts| % 2 == 0 || |ts| == 1
  {
    var tree, half := TreeV1(ts, id), |ts| / 2;
    TreeSize(ts, id);
    forall p | 0 <= p < |tree|
      ensures tree[p].aggIndex == if |ts| % 2 == 1 && p > half then p else p + 1
    {
      NotFinalYet(ts, id, p);
    }
    if |ts| % 2 == 1 && |ts| > 1 {
      assert tree[half].aggIndex == tree[half + 1].aggIndex;
    }
  }
}
