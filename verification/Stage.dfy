/** The stage as the mutable object it is (stage/stage.rs, v2).  Every method is proved
    against the function of StageSpec that says what it does to the whole state. */
module StageObject {
  import opened Receipts
  import opened AggPlan
  import opened DeferredFiles
  import opened Tasks
  import opened StageSpec
  import opened StageSteps

  class Stage {
    const gen: GenerateTask
    var splitTask: SplitTask
    var proveTasks: seq<ProveTask>
    var aggTasks: seq<AggTask>
    var snarkTask: SnarkTask
    var isError: bool
    var step: Step
    var isTasksGenDone: bool
    var nextId: TaskId
    var snarkFile: Option<Receipt>

    ghost function View(): StageState
      reads this
    {
      StageState(gen, splitTask, proveTasks, aggTasks, snarkTask, isError, step, isTasksGenDone, nextId, snarkFile)
    }

    constructor (gen: GenerateTask)
      ensures View() == NewStage(gen)
    {
      this.gen := gen;
      splitTask, proveTasks, aggTasks, snarkTask := DEFAULT_SPLIT, [], [], DEFAULT_SNARK;
      isError, step, isTasksGenDone := false, gen.fromStep, false;
      nextId, snarkFile := 1, None;
    }

    /** A fresh UUID. */
    method NewId() returns (id: TaskId)
      modifies this
      ensures id == old(nextId) && View() == old(View()).(nextId := id + 1)
    {
      id := nextId;
      nextId := nextId + 1;
    }

    // Split

    method GenSplitTask()
      requires splitTask.state == Initial
      modifies this
      ensures View() == GenSplit(old(View()))
    {
      var id := NewId();
      splitTask := splitTask.(taskId := id);
      splitTask := splitTask.(state := Unprocessed);
    }

    method GetSplitTask(now: nat) returns (r: Option<SplitTask>)
      modifies this
      ensures (View(), r) == GetSplit(old(View()), now)
    {
      if splitTask.state == Unprocessed || splitTask.state == Failed {
        splitTask := splitTask.(state := Processing);
        splitTask := splitTask.(trace := splitTask.trace.(startTs := now));
        return Some(splitTask);
      }
      return None;
    }

    /** The message comes back stamped. */
    method OnSplitTask(m: SplitTask, now: nat) returns (m': SplitTask)
      modifies this
      ensures View() == OnSplit(old(View()), m, now)
      ensures m' == m.(trace := Stamped(m.trace, m.state, now))
    {
      m' := m;
      splitTask := splitTask.(totalSteps := m.totalSteps, totalSegments := m.totalSegments);
      if m.state == Failed || m.state == Success || m.state == Unprocessed {
        splitTask := splitTask.(state := m.state);
        if m.state != Unprocessed {
          splitTask := splitTask.(trace := splitTask.trace.(finishTs := now));
          m' := m.(trace := m.trace.(finishTs := now));
          splitTask := splitTask.(output := m.output);
        }
        if m.state == Failed {
          isError := true;
        }
      }
    }

    // Prove

    /** Tasks for the file numbers from..to-1. */
    method TasksWithNo(from: nat, to: nat) returns (ts: seq<ProveTask>)
      modifies this
      ensures ts == NewTasks(from, to, old(nextId))
      ensures View() == old(View()).(nextId := old(nextId) + |ts|)
    {
      ts := [];
      var fileNo := from;
      while fileNo < to
        invariant from <= fileNo && (from <= to ==> fileNo <= to) && (to < from ==> fileNo == from)
        invariant ts == NewTasks(from, fileNo, old(nextId))
        invariant View() == old(View()).(nextId := old(nextId) + |ts|)
      {
        var id := NewId();
        ts := ts + [ProveTask(id, Unprocessed, fileNo, false, EMPTY, NO_TRACE, 0)];
        fileNo := fileNo + 1;
      }
    }

    /** segmentsTxt is the number in segments.txt, if the file can be read and parsed. */
    method GenProveTask(segmentsTxt: Option<nat>)
      modifies this
      ensures View() == GenProve(old(View()), segmentsTxt)
    {
      if gen.targetStep == Split || isTasksGenDone {
        return;
      }
      if proveTasks == [] {
        proveTasks := TasksWithNo(0, PREALLOCATED);
      }
      if segmentsTxt.None? {
        return;
      }
      var more := TasksWithNo(|proveTasks|, segmentsTxt.value);
      proveTasks := proveTasks + more;
    }

    method GenProveTaskPost(listing: seq<DirEntry>)
      modifies this
      ensures View() == GenProvePost(old(View()), listing)
    {
      FitToSegments();
      var files := ListDeferred(listing);
      files := SortByNumber(files);
      PushDeferred(files);
    }

    /** Makes the list as long as the split task says. */
    method FitToSegments()
      modifies this
      ensures View() ==
        if |old(proveTasks)| > splitTask.totalSegments
        then old(View()).(proveTasks := old(proveTasks)[..splitTask.totalSegments])
        else ExtendTo(old(View()), splitTask.totalSegments)
    {
      if |proveTasks| > splitTask.totalSegments {
        proveTasks := proveTasks[..splitTask.totalSegments];
      } else {
        var missing := TasksWithNo(|proveTasks|, splitTask.totalSegments);
        proveTasks := proveTasks + missing;
      }
    }

    method PushDeferred(files: seq<DeferredFile>)
      modifies this
      ensures View() == old(View()).(
        proveTasks := old(proveTasks) + DeferredTasks(files, old(nextId)), nextId := old(nextId) + |files|)
    {
      var i := 0;
      while i < |files|
        invariant i <= |files|
        invariant View() == old(View()).(
          proveTasks := old(proveTasks) + DeferredTasks(files[..i], old(nextId)), nextId := old(nextId) + i)
      {
        var id := NewId();
        assert DeferredTasks(files[..i + 1], old(nextId))
            == DeferredTasks(files[..i], old(nextId)) + [DeferredTask(files[i], id)];
        proveTasks := proveTasks + [ProveTask(id, Success, files[i].number, true, files[i].content, NO_TRACE, 0)];
        i := i + 1;
      }
      assert files[..i] == files;
    }

    /** segments holds the numbers of the segment files that exist. */
    method GetProveTask(segments: set<nat>, now: nat) returns (r: Option<ProveTask>)
      modifies this
      ensures (View(), r) == GetProve(old(View()), segments, now)
    {
      var i := 0;
      while i < |proveTasks|
        invariant i <= |proveTasks| && View() == old(View())
        invariant forall k :: 0 <= k < i ==> !ReadyProve(segments)(proveTasks[k])
      {
        var t := proveTasks[i];
        if t.state == Unprocessed || t.state == Failed {
          if !t.isDeferred && t.fileNo in segments {
            FirstWhereIs(proveTasks, ReadyProve(segments), i);
            t := t.(state := Processing);
            t := t.(trace := t.trace.(startTs := now));
            proveTasks := proveTasks[i := t];
            return Some(t);
          }
        }
        i := i + 1;
      }
      FirstWhereIs(proveTasks, ReadyProve(segments), i);
      return None;
    }

    /** The loop of on_prove_task: the running task with the message's id takes the answer. */
    method AcceptProveTask(m: ProveTask, now: nat)
      modifies this
      ensures View() == AcceptProve(old(View()), m, now)
    {
      var i := 0;
      while i < |proveTasks|
        invariant i <= |proveTasks| && View() == old(View())
        invariant forall k :: 0 <= k < i ==> !RunningProve(m.taskId)(proveTasks[k])
      {
        if proveTasks[i].taskId == m.taskId && proveTasks[i].state == Processing {
          FirstWhereIs(proveTasks, RunningProve(m.taskId), i);
          if m.state == Failed || m.state == Success || m.state == Unprocessed {
            var t := proveTasks[i].(state := m.state);
            if m.state != Unprocessed {
              t := t.(trace := t.trace.(finishTs := now));
              t := t.(trace := t.trace.(nodeInfo := m.trace.nodeInfo));
              t := t.(output := m.output);
            }
            if m.state == Failed {
              if t.failureCount < MAX_FAILURES {
                t := t.(failureCount := t.failureCount + 1);
              } else {
                isError := true;
              }
            }
            proveTasks := proveTasks[i := t];
          }
          return;
        }
        i := i + 1;
      }
      FirstWhereIs(proveTasks, RunningProve(m.taskId), i);
    }

    method OnProveTask(m: ProveTask, now: nat)
      modifies this
      ensures View() == OnProve(old(View()), m, now)
    {
      AcceptProveTask(m, now);
      if m.state == Success {
        ClearAggChildTask(m.taskId);
      }
    }

    method ClearAggChildTask(id: TaskId)
      modifies this
      ensures View() == old(View()).(aggTasks := ClearAgg(old(aggTasks), id))
    {
      var i := 0;
      while i < |aggTasks|
        invariant i <= |aggTasks| && View() == old(View())
        invariant forall k :: 0 <= k < i ==> !WaitingAgg(id)(aggTasks[k])
      {
        var t, cleared := ClearChildTask(aggTasks[i], id);
        if cleared {
          FirstWhereIs(aggTasks, WaitingAgg(id), i);
          aggTasks := aggTasks[i := t];
          return;
        }
        i := i + 1;
      }
      FirstWhereIs(aggTasks, WaitingAgg(id), i);
    }

    method CountUnfinishedProveTasks() returns (n: nat)
      ensures n == CountWhere(proveTasks, ProveNotIn(Success))
    {
      n := CountTasks(ProveNotIn(Success));
    }

    method CountProcessingProveTasks() returns (n: nat)
      ensures n == CountWhere(proveTasks, ProveIn(Processing))
    {
      n := CountTasks(ProveIn(Processing));
    }

    method CountTasks(p: ProveTask -> bool) returns (n: nat)
      ensures n == CountWhere(proveTasks, p)
    {
      var i := |proveTasks|;
      n := 0;
      while i > 0
        invariant 0 <= i <= |proveTasks|
        invariant n == CountWhere(proveTasks[i..], p)
      {
        i := i - 1;
        assert proveTasks[i..][1..] == proveTasks[i + 1..];
        if p(proveTasks[i]) {
          n := n + 1;
        }
      }
      assert proveTasks[0..] == proveTasks;
    }

    // Aggregation

    method NormalLayer(normal: seq<ProveTask>, isComplete: bool) returns (result: seq<AggTask>)
      modifies this
      ensures result == NormalTasks(normal, isComplete, old(nextId), |normal|)
      ensures View() == old(View()).(nextId := old(nextId) + |normal|)
    {
      result := [];
      var i := 0;
      while i < |normal|
        invariant i <= |normal| && result == NormalTasks(normal, isComplete, old(nextId), i)
        invariant View() == old(View()).(nextId := old(nextId) + i)
      {
        var id := NewId();
        var batch := normal[i..i + FIRST_LAYER_BATCH_SIZE];
        result := result + [InitFromProveTasks(id, batch, i, isComplete, i == 0, false)];
        i := i + FIRST_LAYER_BATCH_SIZE;
      }
    }

    method DeferredLayer(deferred: seq<ProveTask>, aggIndex: nat, isComplete: bool) returns (result: seq<AggTask>)
      modifies this
      ensures result == DeferredLayerTasks(deferred, isComplete, old(nextId), aggIndex, |deferred|)
      ensures View() == old(View()).(nextId := old(nextId) + |deferred|)
    {
      result := [];
      var i := 0;
      while i < |deferred|
        invariant i <= |deferred| && result == DeferredLayerTasks(deferred, isComplete, old(nextId), aggIndex, i)
        invariant View() == old(View()).(nextId := old(nextId) + i)
      {
        var id := NewId();
        result := result + [InitFromProveTasks(id, [deferred[i]], aggIndex + i, isComplete, false, true)];
        i := i + 1;
      }
    }

    /** One layer over the given one, added to the list as well. */
    method NextAggLayer(result: seq<AggTask>, aggIndex: nat) returns (newResult: seq<AggTask>)
      modifies this
      ensures IsNextLayer(result, old(nextId), aggIndex, newResult)
      ensures View() == old(View()).(
        aggTasks := old(aggTasks) + newResult, nextId := old(nextId) + |newResult|)
    {
      newResult := [];
      var i := 0;
      while i < |result|
        invariant i == 2 * |newResult| <= |result| + 1
        invariant forall j :: 0 <= j < |newResult| ==> IsBatch(result, old(nextId), aggIndex, newResult, j)
        invariant View() == old(View()).(
          aggTasks := old(aggTasks) + newResult, nextId := old(nextId) + |newResult|)
      {
        var batch := result[i..if i + BATCH_SIZE <= |result| then i + BATCH_SIZE else |result|];
        var id := NewId();
        var aggTask := InitFromAggTasks(id, batch, aggIndex + |newResult|, false);
        ghost var before := newResult;
        aggTasks := aggTasks + [aggTask];
        newResult := newResult + [aggTask];
        BatchesGrow(result, old(nextId), aggIndex, before, aggTask);
        i := i + BATCH_SIZE;
      }
    }

    method FirstLayer() returns (result: seq<AggTask>)
      modifies this
      ensures result == FirstTasks(WithDeferred(proveTasks, false), WithDeferred(proveTasks, true), old(nextId))
      ensures View() == old(View()).(nextId := old(nextId) + |result|)
    {
      var normal, deferred := WithDeferred(proveTasks, false), WithDeferred(proveTasks, true);
      var isComplete := |normal| == 1 && deferred == [];
      result := NormalLayer(normal, isComplete);
      var more := DeferredLayer(deferred, |normal|, isComplete);
      result := result + more;
    }

    /** One turn of the loop: done is the tree up to its layer d, which is result. */
    method Climb(
      result: seq<AggTask>, aggIndex: nat,
      ghost leaves: seq<ProveTask>, ghost base: TaskId, ghost d: nat, ghost done: seq<AggTask>)
      returns (next: seq<AggTask>)
      requires TreeSoFar(leaves, base, d, done, result) && |result| > 1
      requires aggIndex == |done| && nextId == base + aggIndex
      modifies this
      ensures TreeSoFar(leaves, base, d + 1, done + next, next) && |next| < |result|
      ensures View() == old(View()).(aggTasks := old(aggTasks) + next, nextId := old(nextId) + |next|)
    {
      next := NextAggLayer(result, aggIndex);
      TreeGrows(leaves, base, d, done, result, next);
    }

    /** All layers over the first one: the rest of the tree. */
    method UpperLayers(first: seq<AggTask>, ghost leaves: seq<ProveTask>, ghost base: TaskId)
      returns (ghost rest: seq<AggTask>)
      requires TreeSoFar(leaves, base, 0, first, first) && nextId == base + |first|
      modifies this
      ensures first + rest == TreePrefix(leaves, base, |Plan(|leaves|)|)
      ensures View() == old(View()).(aggTasks := old(aggTasks) + rest, nextId := old(nextId) + |rest|)
    {
      var result, aggIndex: nat := first, |first|;
      ghost var d: nat := 0;
      rest := [];
      assert first + rest == first;
      while |result| > 1
        invariant TreeSoFar(leaves, base, d, first + rest, result) && aggIndex == |first + rest|
        invariant View() == old(View()).(aggTasks := old(aggTasks) + rest, nextId := old(nextId) + |rest|)
        decreases |result|
      {
        var next := Climb(result, aggIndex, leaves, base, d, first + rest);
        Regroup(first, rest, next);
        Regroup(old(aggTasks), rest, next);
        rest, d := rest + next, d + 1;
        result, aggIndex := next, aggIndex + |next|;
      }
      TreeEnds(leaves, base, d, first + rest, result);
    }

    method AllLayers()
      modifies this
      ensures var tree := TreeTasks(old(proveTasks), old(nextId));
        View() == old(View()).(aggTasks := old(aggTasks) + tree, nextId := old(nextId) + |tree|)
    {
      ghost var leaves, base := LeafTasks(proveTasks), nextId;
      var result := FirstLayer();
      FirstIsLast(proveTasks, base);
      aggTasks := aggTasks + result;
      ghost var rest := UpperLayers(result, leaves, base);
      Regroup(old(aggTasks), result, rest);
    }

    method GenAggTasks()
      modifies this
      ensures View() == GenAgg(old(View()))
    {
      AllLayers();
      MarkLast();
    }

    method MarkLast()
      modifies this
      ensures View() == old(View()).(aggTasks := MarkFinal(old(aggTasks)))
    {
      if aggTasks != [] {
        aggTasks := aggTasks[|aggTasks| - 1 := aggTasks[|aggTasks| - 1].(isFinal := true)];
      }
    }

    method FindReadyAgg() returns (i: nat)
      ensures i == FirstWhere(aggTasks, ReadyAgg())
    {
      i := 0;
      while i < |aggTasks|
        invariant i <= |aggTasks|
        invariant forall k :: 0 <= k < i ==> !ReadyAgg()(aggTasks[k])
      {
        var waiting := IsWaiting(aggTasks[i].childs);
        if !waiting && (aggTasks[i].state == Unprocessed || aggTasks[i].state == Failed) {
          break;
        }
        i := i + 1;
      }
      FirstWhereIs(aggTasks, ReadyAgg(), i);
    }

    method StartAgg(i: nat, now: nat) returns (t: AggTask)
      requires i < |aggTasks|
      modifies this
      ensures t == old(aggTasks)[i].(state := Processing, trace := Started(old(aggTasks)[i].trace, now))
      ensures View() == old(View()).(aggTasks := old(aggTasks)[i := t])
    {
      t := aggTasks[i].(state := Processing);
      t := t.(trace := t.trace.(startTs := now));
      aggTasks := aggTasks[i := t];
    }

    method GetAggTask(now: nat) returns (r: Option<AggTask>)
      requires LookupsSucceed(View())
      modifies this
      ensures (View(), r) == GetAgg(old(View()), now)
    {
      var i := FindReadyAgg();
      if i == |aggTasks| {
        return None;
      }
      var t := StartAgg(i, now);
      FoundAfterStart(old(View()), View(), i);
      var inputs := FillInputs(t.inputs);
      FilledAfterStart(old(View()), View(), i, inputs);
      return Some(t.(inputs := inputs));
    }

    method FillInputs(inputs: seq<AggregateInput>) returns (filled: seq<AggregateInput>)
      requires forall j :: 0 <= j < |inputs| ==> InputFound(View(), inputs[j])
      ensures |filled| == |inputs| && forall j :: 0 <= j < |inputs| ==> filled[j] == FilledInput(View(), inputs[j])
    {
      filled := inputs;
      var j := 0;
      while j < |inputs|
        invariant j <= |inputs| == |filled|
        invariant forall k :: 0 <= k < j ==> filled[k] == FilledInput(View(), inputs[k])
        invariant forall k :: j <= k < |inputs| ==> filled[k] == inputs[k]
      {
        var output;
        if inputs[j].isAgg {
          output := FindAgg(inputs[j].computedRequestId);
        } else {
          output := FindProve(inputs[j].computedRequestId);
        }
        filled := filled[j := filled[j].(receiptInput := output)];
        j := j + 1;
      }
    }

    method FindAgg(id: TaskId) returns (output: Receipt)
      requires FirstWhere(aggTasks, NamedAgg(id)) < |aggTasks|
      ensures output == aggTasks[FirstWhere(aggTasks, NamedAgg(id))].output
    {
      var i := 0;
      while aggTasks[i].taskId != id
        invariant i <= FirstWhere(aggTasks, NamedAgg(id))
        invariant forall k :: 0 <= k < i ==> !NamedAgg(id)(aggTasks[k])
        decreases |aggTasks| - i
      {
        i := i + 1;
      }
      FirstWhereIs(aggTasks, NamedAgg(id), i);
      output := aggTasks[i].output;
    }

    method FindProve(id: TaskId) returns (output: Receipt)
      requires FirstWhere(proveTasks, NamedProve(id)) < |proveTasks|
      ensures output == proveTasks[FirstWhere(proveTasks, NamedProve(id))].output
    {
      var i := 0;
      while proveTasks[i].taskId != id
        invariant i <= FirstWhere(proveTasks, NamedProve(id))
        invariant forall k :: 0 <= k < i ==> !NamedProve(id)(proveTasks[k])
        decreases |proveTasks| - i
      {
        i := i + 1;
      }
      FirstWhereIs(proveTasks, NamedProve(id), i);
      output := proveTasks[i].output;
    }

    /** The loop of on_agg_task: the running task with the message's id takes the answer. */
    method AcceptAggTask(m: AggTask, now: nat)
      modifies this
      ensures View() == AcceptAgg(old(View()), m, now)
    {
      var i := 0;
      while i < |aggTasks|
        invariant i <= |aggTasks| && View() == old(View())
        invariant forall k :: 0 <= k < i ==> !RunningAgg(m.taskId)(aggTasks[k])
      {
        if aggTasks[i].taskId == m.taskId && aggTasks[i].state == Processing {
          FirstWhereIs(aggTasks, RunningAgg(m.taskId), i);
          if m.state == Failed || m.state == Success || m.state == Unprocessed {
            var t := aggTasks[i].(state := m.state);
            if m.state != Unprocessed {
              t := t.(trace := t.trace.(finishTs := now));
              t := t.(output := m.output);
            }
            if m.state == Failed {
              isError := true;
            }
            aggTasks := aggTasks[i := t];
          }
          return;
        }
        i := i + 1;
      }
      FirstWhereIs(aggTasks, RunningAgg(m.taskId), i);
    }

    method OnAggTask(m: AggTask, now: nat)
      modifies this
      ensures View() == OnAgg(old(View()), m, now)
    {
      AcceptAggTask(m, now);
      if m.state == Success {
        ClearAggChildTask(m.taskId);
        if m.isFinal && gen.targetStep == Agg {
          snarkFile := Some(m.output);
        }
      }
    }

    // Snark

    /** The loop of gen_snark_task: the last final task wins. */
    method TakeFinalOutput()
      modifies this
      ensures View() == old(View()).(snarkTask := old(snarkTask).(
        aggReceipt := FinalOutput(aggTasks, old(snarkTask).aggReceipt),
        fromInput := old(snarkTask).fromInput && forall k :: 0 <= k < |aggTasks| ==> !aggTasks[k].isFinal))
    {
      var i := 0;
      while i < |aggTasks|
        invariant i <= |aggTasks|
        invariant View() == old(View()).(snarkTask := old(snarkTask).(
          aggReceipt := FinalOutput(aggTasks[..i], old(snarkTask).aggReceipt),
          fromInput := old(snarkTask).fromInput && forall k :: 0 <= k < i ==> !aggTasks[k].isFinal))
      {
        assert aggTasks[..i + 1][..i] == aggTasks[..i];
        if aggTasks[i].isFinal {
          snarkTask := snarkTask.(aggReceipt := aggTasks[i].output);
          snarkTask := snarkTask.(fromInput := false);
        }
        i := i + 1;
      }
      assert aggTasks[..i] == aggTasks;
    }

    method GenSnarkTask()
      requires GenSnarkSafe(View())
      modifies this
      ensures View() == GenSnark(old(View()))
    {
      var id := NewId();
      snarkTask := snarkTask.(taskId := id);
      snarkTask := snarkTask.(state := Unprocessed);
      if gen.fromStep == Init {
        TakeFinalOutput();
      } else {
        snarkTask := snarkTask.(aggReceipt := gen.inputReceipt);
        snarkTask := snarkTask.(fromInput := true);
      }
    }

    method GetSnarkTask(now: nat) returns (r: Option<SnarkTask>)
      modifies this
      ensures (View(), r) == GetSnark(old(View()), now)
    {
      if snarkTask.state == Unprocessed || snarkTask.state == Failed {
        snarkTask := snarkTask.(state := Processing);
        snarkTask := snarkTask.(trace := snarkTask.trace.(startTs := now));
        return Some(snarkTask);
      }
      return None;
    }

    /** The message comes back stamped. */
    method OnSnarkTask(m: SnarkTask, now: nat) returns (m': SnarkTask)
      modifies this
      ensures View() == OnSnark(old(View()), m, now)
      ensures m' == m.(trace := Stamped(m.trace, m.state, now))
    {
      m' := m;
      snarkFile := Some(m.output);
      if m.state == Failed || m.state == Success || m.state == Unprocessed {
        snarkTask := snarkTask.(state := m.state);
        if m.state != Unprocessed {
          snarkTask := snarkTask.(trace := snarkTask.trace.(finishTs := now));
          m' := m.(trace := m.trace.(finishTs := now));
          snarkTask := snarkTask.(output := m.output);
        }
        if m.state == Failed {
          isError := true;
        }
      }
    }

    // Dispatch

    method AllProveTasksDone() returns (done: bool)
      ensures done <==> AllProved(View())
    {
      var i := 0;
      while i < |proveTasks|
        invariant i <= |proveTasks| && forall k :: 0 <= k < i ==> proveTasks[k].state == Success
      {
        if proveTasks[i].state != Success {
          return false;
        }
        i := i + 1;
      }
      return true;
    }

    method AllAggTasksDone() returns (done: bool)
      ensures done <==> AllAggregated(View())
    {
      var i := 0;
      while i < |aggTasks|
        invariant i <= |aggTasks| && forall k :: 0 <= k < i ==> aggTasks[k].state == Success
      {
        if aggTasks[i].state != Success {
          return false;
        }
        i := i + 1;
      }
      return true;
    }

    /** Clears the slots of the prove tasks that finished before the tree was built. */
    method ClearFinished()
      modifies this
      ensures View() == TellDone(old(View()))
    {
      var ids, i := SuccessfulIds(proveTasks), 0;
      while i < |ids|
        invariant i <= |ids|
        invariant View() == old(View()).(aggTasks := aggTasks)
        invariant ClearAll(aggTasks, ids[i..]) == ClearAll(old(aggTasks), ids)
      {
        assert ids[i..][1..] == ids[i + 1..];
        ClearAggChildTask(ids[i]);
        i := i + 1;
      }
    }

    /** The second half of dispatch's Prove arm: is the step over? */
    method AdvanceStep()
      requires GenSnarkSafe(View())
      modifies this
      ensures View() == Advance(old(View()))
    {
      if isTasksGenDone {
        var proved := AllProveTasksDone();
        if proved {
          if gen.compositeProof {
            step := End;
          } else {
            var aggregated := AllAggTasksDone();
            if aggregated {
              if gen.targetStep == Agg {
                step := End;
              } else {
                GenSnarkTask();
                step := StageSpec.Snark;
              }
            }
          }
        }
      }
    }

    /** What dispatch does when the split has just succeeded. */
    method GenAllTasks(listing: seq<DirEntry>)
      modifies this
      ensures View() == GenTasks(old(View()), listing)
    {
      GenProveTaskPost(listing);
      if !gen.compositeProof {
        GenAggTasks();
      }
      isTasksGenDone := true;
      ClearFinished();
    }

    method DispatchProveStep(segmentsTxt: Option<nat>, listing: seq<DirEntry>)
      requires GenSnarkSafe(View())
      modifies this
      ensures View() == DispatchProve(old(View()), segmentsTxt, listing)
    {
      GenProveTask(segmentsTxt);
      if splitTask.state == Success && !isTasksGenDone {
        if gen.targetStep == Split {
          step := End;
          return;
        }
        GenTasksPhase(View(), listing);
        GenAllTasks(listing);
      }
      AdvanceStep();
    }

    method DispatchStep(segmentsTxt: Option<nat>, listing: seq<DirEntry>)
      requires DispatchSafe(View())
      modifies this
      ensures View() == Dispatch(old(View()), segmentsTxt, listing)
    {
      match step
      case Init =>
        GenSplitTask();
        step := Prove;
      case Prove =>
        DispatchProveStep(segmentsTxt, listing);
      case Agg =>
        GenSnarkTask();
        step := StageSpec.Snark;
      case Snark =>
        if snarkTask.state == Success {
          step := End;
        }
      case _ =>
    }
  }

  /** The parsable deferred-proof files of a directory. */
  method ListDeferred(listing: seq<DirEntry>) returns (files: seq<DeferredFile>)
    ensures files == FilesIn(listing)
  {
    var i := 0;
    files := [];
    while i < |listing|
      invariant i <= |listing|
      invariant files == FilesIn(listing[..i])
    {
      assert listing[..i + 1] == listing[..i] + [listing[i]];
      FilesInSnoc(listing[..i], listing[i]);
      if listing[i].Deferred? {
        files := files + [listing[i].file];
      }
      i := i + 1;
    }
    assert listing[..i] == listing;
  }

  method IsWaiting(childs: seq<Option<TaskId>>) returns (waiting: bool)
    ensures waiting <==> exists j :: 0 <= j < |childs| && childs[j].Some?
  {
    var j := 0;
    while j < |childs|
      invariant j <= |childs| && forall k :: 0 <= k < j ==> childs[k].None?
    {
      if childs[j].Some? {
        return true;
      }
      j := j + 1;
    }
    return false;
  }

  // The layers of gen_agg_tasks

  lemma {:induction false} WithDeferredMeaning(ts: seq<ProveTask>, deferred: bool)
    ensures forall k :: 0 <= k < |WithDeferred(ts, deferred)| ==> WithDeferred(ts, deferred)[k].isDeferred == deferred
  {
    if ts != [] {
      WithDeferredMeaning(ts[1..], deferred);
    }
  }

  lemma FirstLayerTask(leaves: seq<ProveTask>, base: TaskId, p: nat, t: AggTask)
    requires p < |leaves| <= |Plan(|leaves|)|
    requires var deferred := leaves[p].isDeferred;
      t == InitFromProveTasks(base + p, [leaves[p]], p, |leaves| == 1 && !deferred, p == 0 && !deferred, deferred)
    ensures t == AggTaskAt(leaves, base, p)
  {
    PlanKids(|leaves|);
    assert Plan(|leaves|)[p] == [p];
  }

  // The tasks the loops of gen_agg_tasks make.

  function NormalTasks(normal: seq<ProveTask>, isComplete: bool, id: TaskId, m: nat): (ts: seq<AggTask>)
    requires m <= |normal|
    ensures |ts| == m
  {
    seq(m, i requires 0 <= i < m => InitFromProveTasks(id + i, normal[i..i + 1], i, isComplete, i == 0, false))
  }

  function DeferredLayerTasks(deferred: seq<ProveTask>, isComplete: bool, id: TaskId, index: nat, m: nat): (ts: seq<AggTask>)
    requires m <= |deferred|
    ensures |ts| == m
  {
    seq(m, i requires 0 <= i < m => InitFromProveTasks(id + i, [deferred[i]], index + i, isComplete, false, true))
  }

  function Batch(result: seq<AggTask>, j: nat): (batch: seq<AggTask>)
    requires 2 * j < |result|
    ensures batch != []
  {
    result[2 * j..if 2 * j + 2 <= |result| then 2 * j + 2 else |result|]
  }

  /** Entry j of next is the task over batch j of result. */
  ghost predicate IsBatch(result: seq<AggTask>, id: TaskId, index: nat, next: seq<AggTask>, j: nat) {
    && j < |next| && 2 * j < |result|
    && next[j] == InitFromAggTasks(id + j, Batch(result, j), index + j, false)
  }

  ghost predicate IsNextLayer(result: seq<AggTask>, id: TaskId, index: nat, next: seq<AggTask>) {
    && |next| == (|result| + 1) / 2
    && forall j :: 0 <= j < |next| ==> IsBatch(result, id, index, next, j)
  }

  lemma BatchesGrow(result: seq<AggTask>, id: TaskId, index: nat, next: seq<AggTask>, t: AggTask)
    requires forall j :: 0 <= j < |next| ==> IsBatch(result, id, index, next, j)
    requires 2 * |next| < |result| && t == InitFromAggTasks(id + |next|, Batch(result, |next|), index + |next|, false)
    ensures forall j :: 0 <= j < |next| + 1 ==> IsBatch(result, id, index, next + [t], j)
  {
    forall j | 0 <= j < |next| + 1
      ensures IsBatch(result, id, index, next + [t], j)
    {
      assert j < |next| ==> IsBatch(result, id, index, next, j);
    }
  }

  function FirstTasks(normal: seq<ProveTask>, deferred: seq<ProveTask>, id: TaskId): (ts: seq<AggTask>)
    ensures |ts| == |normal| + |deferred|
  {
    var isComplete := |normal| == 1 && deferred == [];
    NormalTasks(normal, isComplete, id, |normal|)
    + DeferredLayerTasks(deferred, isComplete, id + |normal|, |normal|, |deferred|)
  }

  /** Entry i of ts is the tree's task at position start + i. */
  ghost predicate Placed(leaves: seq<ProveTask>, base: TaskId, start: nat, ts: seq<AggTask>, i: nat) {
    i < |ts| && start + i < |Plan(|leaves|)| && ts[i] == AggTaskAt(leaves, base, start + i)
  }

  ghost predicate AllPlaced(leaves: seq<ProveTask>, base: TaskId, start: nat, ts: seq<AggTask>) {
    forall i :: 0 <= i < |ts| ==> Placed(leaves, base, start, ts, i)
  }

  lemma PlacedConcat(leaves: seq<ProveTask>, base: TaskId, start: nat, xs: seq<AggTask>, ys: seq<AggTask>)
    requires AllPlaced(leaves, base, start, xs) && AllPlaced(leaves, base, start + |xs|, ys)
    ensures AllPlaced(leaves, base, start, xs + ys)
  {
    forall i | 0 <= i < |xs + ys|
      ensures Placed(leaves, base, start, xs + ys, i)
    {
      assert i < |xs| ==> Placed(leaves, base, start, xs, i);
      assert i >= |xs| ==> Placed(leaves, base, start + |xs|, ys, i - |xs|);
    }
  }

  lemma PlacedIsTree(leaves: seq<ProveTask>, base: TaskId, all: seq<AggTask>)
    requires AllPlaced(leaves, base, 0, all) && |all| == |Plan(|leaves|)|
    ensures all == TreePrefix(leaves, base, |Plan(|leaves|)|)
  {
    forall i | 0 <= i < |all|
      ensures all[i] == AggTaskAt(leaves, base, i)
    {
      assert Placed(leaves, base, 0, all, i);
    }
  }

  // The layers of the plan: layer 0 is over the leaves, layer d + 1 over layer d.

  function LayerLen(n: nat, d: nat): nat {
    if d == 0 then n else (LayerLen(n, d - 1) + 1) / 2
  }

  function LayerStart(n: nat, d: nat): nat {
    if d == 0 then 0 else LayerStart(n, d - 1) + LayerLen(n, d - 1)
  }

  ghost predicate IsLayer(n: nat, d: nat) {
    d == 0 || (LayerLen(n, d - 1) >= 2 && IsLayer(n, d - 1))
  }

  /** The plan goes on after positions start..start+len-1 with the tower over them. */
  ghost predicate TowerFollows(n: nat, start: nat, len: nat) {
    n <= start + len <= |Plan(n)| && Plan(n)[start + len..] == Tower(n + start, len)
  }

  /** Above layer d the plan lists the tower over it. */
  lemma {:induction false} LayerTail(n: nat, d: nat)
    requires IsLayer(n, d)
    ensures TowerFollows(n, LayerStart(n, d), LayerLen(n, d))
  {
    if d == 0 {
      PlanStarts(n);
    } else {
      LayerTail(n, d - 1);
      NextTail(n, LayerStart(n, d - 1), LayerLen(n, d - 1));
    }
  }

  lemma PlanStarts(n: nat)
    ensures TowerFollows(n, 0, n)
  {
    assert Plan(n)[n..] == Tower(n, n);
  }

  lemma {:induction false} NextTail(n: nat, start: nat, len: nat)
    requires 2 <= len && TowerFollows(n, start, len)
    ensures TowerFollows(n, start + len, (len + 1) / 2)
  {
    TailOfTail(Plan(n), start + len, Pairing(n + start, len), Tower(n + start + len, (len + 1) / 2));
  }

  lemma TailOfTail(plan: seq<seq<nat>>, k: nat, low: seq<seq<nat>>, high: seq<seq<nat>>)
    requires k <= |plan| && plan[k..] == low + high
    ensures k + |low| <= |plan| && plan[k + |low|..] == high
  {
    assert plan[k + |low|..] == plan[k..][|low|..];
  }

  /** The nodes that entry j of the layer after positions start..start+len-1 aggregates. */
  ghost predicate KidsPlanned(n: nat, start: nat, len: nat, j: nat) {
    n <= start + len && start + len + j < |Plan(n)| &&
    var kids := Plan(n)[start + len + j];
    && 2 * j < len && |kids| == (if 2 * j + 2 <= len then 2 else 1)
    && forall i :: 0 <= i < |kids| ==> kids[i] == n + start + 2 * j + i
  }

  lemma HeadOfTail(plan: seq<seq<nat>>, k: nat, low: seq<seq<nat>>, high: seq<seq<nat>>, j: nat)
    requires k <= |plan| && plan[k..] == low + high && j < |low|
    ensures k + j < |plan| && plan[k + j] == low[j]
  {
    assert plan[k + j] == plan[k..][j];
  }

  lemma {:induction false} NextKids(n: nat, start: nat, len: nat, j: nat)
    requires 2 <= len && TowerFollows(n, start, len) && 2 * j < len
    ensures KidsPlanned(n, start, len, j)
  {
    HeadOfTail(Plan(n), start + len, Pairing(n + start, len), Tower(n + start + len, (len + 1) / 2), j);
  }

  lemma {:induction false} LayerKids(n: nat, d: nat, j: nat)
    requires IsLayer(n, d) && LayerLen(n, d) >= 2 && 2 * j < LayerLen(n, d)
    ensures KidsPlanned(n, LayerStart(n, d), LayerLen(n, d), j)
  {
    LayerTail(n, d);
    NextKids(n, LayerStart(n, d), LayerLen(n, d), j);
  }

  lemma {:induction false} TopLayerEnds(n: nat, d: nat)
    requires IsLayer(n, d) && LayerLen(n, d) <= 1
    ensures LayerStart(n, d) + LayerLen(n, d) == |Plan(n)|
  {
    LayerTail(n, d);
    assert |Plan(n)[LayerStart(n, d) + LayerLen(n, d)..]| == 0;
  }

  /** all is how the tree begins, up to its layer d, which is result. */
  ghost predicate TreeSoFar(leaves: seq<ProveTask>, base: TaskId, d: nat, all: seq<AggTask>, result: seq<AggTask>) {
    && IsLayer(|leaves|, d) && |result| == LayerLen(|leaves|, d)
    && |all| == LayerStart(|leaves|, d) + |result|
    && AllPlaced(leaves, base, LayerStart(|leaves|, d), result) && AllPlaced(leaves, base, 0, all)
  }

  lemma {:induction false} FirstIsLast(ts: seq<ProveTask>, base: TaskId)
    ensures var first := FirstTasks(WithDeferred(ts, false), WithDeferred(ts, true), base);
      TreeSoFar(LeafTasks(ts), base, 0, first, first)
  {
    var normal, deferred, leaves := WithDeferred(ts, false), WithDeferred(ts, true), LeafTasks(ts);
    var result := FirstTasks(normal, deferred, base);
    LayerTail(|leaves|, 0);
    WithDeferredMeaning(ts, false);
    WithDeferredMeaning(ts, true);
    forall p | 0 <= p < |leaves|
      ensures Placed(leaves, base, 0, result, p)
    {
      assert p < |normal| ==> normal[p..p + 1] == [leaves[p]];
      assert p >= |normal| ==> deferred[p - |normal|] == leaves[p];
      FirstLayerTask(leaves, base, p, result[p]);
    }
  }

  /** What an agg task of a layer contributes to the next one. */
  lemma {:induction false} LayerInput(leaves: seq<ProveTask>, base: TaskId, start: nat, result: seq<AggTask>, i: nat)
    requires AllPlaced(leaves, base, start, result) && i < |result|
    ensures var x := |leaves| + start + i;
      && ToAggInput(result[i]) == AggregateInput(EMPTY, NodeId(leaves, base, x), true)
      && result[i].taskId == NodeId(leaves, base, x)
  {
    assert Placed(leaves, base, start, result, i);
  }

  /** A batch of a layer makes the tree's next task. */
  lemma {:induction false} NextTask(
    leaves: seq<ProveTask>, base: TaskId, start: nat, result: seq<AggTask>, j: nat, next: seq<AggTask>)
    requires AllPlaced(leaves, base, start, result) && KidsPlanned(|leaves|, start, |result|, j)
    requires IsBatch(result, base + start + |result|, start + |result|, next, j)
    ensures Placed(leaves, base, start + |result|, next, j)
  {
    var batch := Batch(result, j);
    forall i | 0 <= i < |batch|
      ensures ToAggInput(batch[i]) == AggregateInput(EMPTY, NodeId(leaves, base, |leaves| + start + 2 * j + i), true)
      ensures batch[i].taskId == NodeId(leaves, base, |leaves| + start + 2 * j + i)
    {
      LayerInput(leaves, base, start, result, 2 * j + i);
      assert batch[i] == result[2 * j + i];
    }
    BatchIsPlanned(leaves, base, start + |result| + j, batch, |leaves| + start + 2 * j);
  }

  /** The task over consecutive nodes x, x+1, ... is the tree's, if the plan says so. */
  lemma {:induction false} BatchIsPlanned(leaves: seq<ProveTask>, base: TaskId, p: nat, batch: seq<AggTask>, x: nat)
    requires batch != [] && |leaves| <= p < |Plan(|leaves|)| && |Plan(|leaves|)[p]| == |batch|
    requires forall i :: 0 <= i < |batch| ==> Plan(|leaves|)[p][i] == x + i
    requires forall i :: 0 <= i < |batch| ==>
      && ToAggInput(batch[i]) == AggregateInput(EMPTY, NodeId(leaves, base, x + i), true)
      && batch[i].taskId == NodeId(leaves, base, x + i)
    ensures InitFromAggTasks(base + p, batch, p, false) == AggTaskAt(leaves, base, p)
  {
    var t, t' := InitFromAggTasks(base + p, batch, p, false), AggTaskAt(leaves, base, p);
    assert t.inputs == t'.inputs && t.childs == t'.childs;
  }

  lemma {:induction false} NextPlaced(
    leaves: seq<ProveTask>, base: TaskId, start: nat, result: seq<AggTask>, next: seq<AggTask>)
    requires AllPlaced(leaves, base, start, result)
    requires forall j :: 0 <= 2 * j < |result| ==> KidsPlanned(|leaves|, start, |result|, j)
    requires IsNextLayer(result, base + start + |result|, start + |result|, next)
    ensures AllPlaced(leaves, base, start + |result|, next)
  {
    var k := start + |result|;
    forall j | 0 <= j < |next|
      ensures Placed(leaves, base, k, next, j)
    {
      assert IsBatch(result, base + start + |result|, start + |result|, next, j);
      NextTask(leaves, base, start, result, j, next);
    }
  }

  lemma {:induction false} TreeGrows(
    leaves: seq<ProveTask>, base: TaskId, d: nat, all: seq<AggTask>, result: seq<AggTask>, next: seq<AggTask>)
    requires TreeSoFar(leaves, base, d, all, result) && |result| > 1
    requires IsNextLayer(result, base + |all|, |all|, next)
    ensures TreeSoFar(leaves, base, d + 1, all + next, next) && |next| < |result|
  {
    forall j | 0 <= 2 * j < |result|
      ensures KidsPlanned(|leaves|, LayerStart(|leaves|, d), |result|, j)
    {
      LayerKids(|leaves|, d, j);
    }
    NextPlaced(leaves, base, LayerStart(|leaves|, d), result, next);
    PlacedConcat(leaves, base, 0, all, next);
  }

  lemma {:induction false} TreeEnds(leaves: seq<ProveTask>, base: TaskId, d: nat, all: seq<AggTask>, result: seq<AggTask>)
    requires TreeSoFar(leaves, base, d, all, result) && |result| <= 1
    ensures all == TreePrefix(leaves, base, |Plan(|leaves|)|)
  {
    TopLayerEnds(|leaves|, d);
    PlacedIsTree(leaves, base, all);
  }

  // Starting an agg task leaves the lookups of its inputs alone

  lemma {:induction false} SameNames(s: StageState, s1: StageState, id: TaskId)
    requires |s1.aggTasks| == |s.aggTasks|
    requires forall p :: 0 <= p < |s.aggTasks| ==> s1.aggTasks[p].taskId == s.aggTasks[p].taskId
    ensures FirstWhere(s1.aggTasks, NamedAgg(id)) == FirstWhere(s.aggTasks, NamedAgg(id))
  {
    FirstWhereIs(s1.aggTasks, NamedAgg(id), FirstWhere(s.aggTasks, NamedAgg(id)));
  }

  ghost predicate StartedAt(s: StageState, s1: StageState, i: nat) {
    && i < |s.aggTasks| == |s1.aggTasks|
    && s1 == s.(aggTasks := s.aggTasks[i := s.aggTasks[i].(state := Processing, trace := s1.aggTasks[i].trace)])
  }

  lemma {:induction false} SameLookup(s: StageState, s1: StageState, i: nat, input: AggregateInput)
    requires StartedAt(s, s1, i)
    ensures InputFound(s1, input) == InputFound(s, input)
    ensures FilledInput(s1, input) == FilledInput(s, input)
  {
    SameNames(s, s1, input.computedRequestId);
  }

  lemma {:induction false} FoundAfterStart(s: StageState, s1: StageState, i: nat)
    requires LookupsSucceed(s) && i == FirstWhere(s.aggTasks, ReadyAgg())
    requires StartedAt(s, s1, i)
    ensures forall j :: 0 <= j < |s.aggTasks[i].inputs| ==> InputFound(s1, s.aggTasks[i].inputs[j])
  {
    forall j | 0 <= j < |s.aggTasks[i].inputs|
      ensures InputFound(s1, s.aggTasks[i].inputs[j])
    {
      SameLookup(s, s1, i, s.aggTasks[i].inputs[j]);
    }
  }

  lemma {:induction false} FilledAfterStart(s: StageState, s1: StageState, i: nat, filled: seq<AggregateInput>)
    requires StartedAt(s, s1, i)
    requires var inputs := s.aggTasks[i].inputs;
      |filled| == |inputs| && forall j :: 0 <= j < |inputs| ==> filled[j] == FilledInput(s1, inputs[j])
    ensures var inputs := s.aggTasks[i].inputs;
      filled == FilledInputs(s, inputs)
  {
    forall j | 0 <= j < |filled|
      ensures filled[j] == FilledInput(s, s.aggTasks[i].inputs[j])
    {
      SameLookup(s, s1, i, s.aggTasks[i].inputs[j]);
    }
  }
}
