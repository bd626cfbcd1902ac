/** Building the tree: the state dispatch leaves once the split is done satisfies TasksOk,
    whichever prove tasks finished before the tree existed. */
module StageBuild {
  import opened Receipts
  import opened AggPlan
  import opened DeferredFiles
  import opened Tasks
  import opened StageSpec
  import opened StageInvariant

  // Prove tasks

  function Appended(s: StageState, more: seq<ProveTask>): StageState {
    s.(proveTasks := s.proveTasks + more, nextId := s.nextId + |more|)
  }

  /** Freshly numbered tasks can be appended while there is no tree. */
  lemma {:induction false} AppendIds(s: StageState, more: seq<ProveTask>)
    requires IdsOk(s) && s.aggTasks == []
    requires forall k :: 0 <= k < |more| ==> more[k].taskId == s.nextId + k
    ensures IdsOk(Appended(s, more))
  {
    var s1 := Appended(s, more);
    forall i | 0 <= i < |s1.proveTasks|
      ensures i >= |s.proveTasks| ==> s1.proveTasks[i].taskId == s.nextId + i - |s.proveTasks|
      ensures s1.proveTasks[i].taskId < s1.nextId
    {
      if i >= |s.proveTasks| {
        assert s1.proveTasks[i] == more[i - |s.proveTasks|];
      }
    }
  }

  lemma {:induction false} ExtendKeeps(s: StageState, n: nat)
    requires TasksOk(s) && !s.tasksGenDone
    ensures TasksOk(ExtendTo(s, n)) && |ExtendTo(s, n).proveTasks| == if n > |s.proveTasks| then n else |s.proveTasks|
    ensures forall i :: |s.proveTasks| <= i < n ==>
      ExtendTo(s, n).proveTasks[i] == TaskWithNo(i, s.nextId + i - |s.proveTasks|)
  {
    var more := NewTasks(|s.proveTasks|, n, s.nextId);
    var s1 := ExtendTo(s, n);
    AppendIds(s, more);
    forall i | |s.proveTasks| <= i < n
      ensures s1.proveTasks[i] == TaskWithNo(i, s.nextId + i - |s.proveTasks|)
    {
      assert s1.proveTasks[i] == more[i - |s.proveTasks|];
    }
    forall i | 0 <= i < |s1.proveTasks|
      ensures ProveOk(s1.proveTasks[i], i) && !s1.proveTasks[i].isDeferred
    {
      if i < |s.proveTasks| {
        assert ProveOk(s.proveTasks[i], i);
      }
    }
  }

  lemma {:induction false} GenProveKeeps(s: StageState, segmentsTxt: Option<nat>)
    requires TasksOk(s)
    ensures TasksOk(GenProve(s, segmentsTxt))
  {
    if s.gen.targetStep != Split && !s.tasksGenDone {
      var s1 := if s.proveTasks == [] then ExtendTo(s, PREALLOCATED) else s;
      ExtendKeeps(s, PREALLOCATED);
      if segmentsTxt.Some? {
        ExtendKeeps(s1, segmentsTxt.value);
      }
    }
  }

  ghost predicate ListingOk(listing: seq<DirEntry>) {
    forall f :: f in FilesIn(listing) ==> IsLeaf(f.content)
  }

  /** The first total tasks are the segments in order, kept from s or fresh. */
  ghost predicate Fitted(s: StageState, s1: StageState, total: nat) {
    && |s1.proveTasks| == total
    && forall i :: 0 <= i < total ==>
         s1.proveTasks[i] == if i < |s.proveTasks| then s.proveTasks[i] else TaskWithNo(i, s.nextId + i - |s.proveTasks|)
  }

  function Fit(s: StageState): StageState {
    var total := s.splitTask.totalSegments;
    if |s.proveTasks| > total then s.(proveTasks := s.proveTasks[..total]) else ExtendTo(s, total)
  }

  lemma {:induction false} FitKeeps(s: StageState)
    requires TasksOk(s) && !s.tasksGenDone
    ensures TasksOk(Fit(s)) && Fitted(s, Fit(s), s.splitTask.totalSegments)
  {
    ExtendKeeps(s, s.splitTask.totalSegments);
  }

  lemma {:induction false} AppendDeferred(s: StageState, files: seq<DeferredFile>)
    requires TasksOk(s) && !s.tasksGenDone
    requires forall k :: 0 <= k < |files| ==> IsLeaf(files[k].content)
    ensures var s1 := Appended(s, DeferredTasks(files, s.nextId)); IdsOk(s1) && ProvesOk(s1.(tasksGenDone := true))
  {
    var more := DeferredTasks(files, s.nextId);
    var s1 := Appended(s, more);
    AppendIds(s, more);
    forall i | 0 <= i < |s1.proveTasks|
      ensures ProveOk(s1.proveTasks[i], i)
      ensures s1.proveTasks[i].isDeferred <==> i >= |s.proveTasks|
    {
      if i < |s.proveTasks| {
        assert ProveOk(s.proveTasks[i], i);
      } else {
        assert s1.proveTasks[i] == DeferredTask(files[i - |s.proveTasks|], s.nextId + i - |s.proveTasks|);
      }
    }
  }

  /** Exactly total normal tasks remain, retained ones untouched, followed by the deferred
      inputs in the order of their numbers; identifiers stay unique. */
  lemma {:induction false} GenProvePostKeeps(s: StageState, listing: seq<DirEntry>)
    requires TasksOk(s) && !s.tasksGenDone && ListingOk(listing)
    ensures var s1, files := GenProvePost(s, listing), SortByNumber(FilesIn(listing));
      && s1.proveTasks == Fit(s).proveTasks + DeferredTasks(files, Fit(s).nextId)
      && Fitted(s, Fit(s), s.splitTask.totalSegments)
      && s1.aggTasks == []
      && IdsOk(s1) && ProvesOk(s1.(tasksGenDone := true))
  {
    var files := SortByNumber(FilesIn(listing));
    FitKeeps(s);
    SortedPermutation(FilesIn(listing));
    forall k | 0 <= k < |files|
      ensures IsLeaf(files[k].content)
    {
      assert files[k] in multiset(files);
      assert files[k] in FilesIn(listing);
    }
    AppendDeferred(Fit(s), files);
  }

  // The leaf order

  lemma {:induction false} WithDeferredAll(ts: seq<ProveTask>, deferred: bool)
    ensures (forall i :: 0 <= i < |ts| ==> ts[i].isDeferred == deferred) ==> WithDeferred(ts, deferred) == ts
    ensures (forall i :: 0 <= i < |ts| ==> ts[i].isDeferred != deferred) ==> WithDeferred(ts, deferred) == []
  {
    if ts != [] {
      WithDeferredAll(ts[1..], deferred);
      assert ts == [ts[0]] + ts[1..];
    }
  }

  /** With normal tasks first, splitting by kind and rejoining changes nothing. */
  lemma {:induction false} LeafOrder(ts: seq<ProveTask>)
    requires forall i, j :: 0 <= i < j < |ts| && ts[i].isDeferred ==> ts[j].isDeferred
    ensures LeafTasks(ts) == ts
  {
    if ts == [] {
    } else if ts[0].isDeferred {
      WithDeferredAll(ts, true);
      WithDeferredAll(ts, false);
    } else {
      LeafOrder(ts[1..]);
      assert ts == [ts[0]] + ts[1..];
    }
  }

  // Clearing the slots of what is already done

  lemma {:induction false} SuccessfulIdsMeaning(ts: seq<ProveTask>, id: TaskId)
    ensures id in SuccessfulIds(ts) <==> exists i :: 0 <= i < |ts| && ts[i].state == Success && ts[i].taskId == id
  {
    if ts != [] {
      SuccessfulIdsMeaning(ts[1..], id);
      if i :| 0 <= i < |ts| && ts[i].state == Success && ts[i].taskId == id {
        if i > 0 {
          assert ts[1..][i - 1] == ts[i];
        }
      }
      if j :| 0 <= j < |ts[1..]| && ts[1..][j].state == Success && ts[1..][j].taskId == id {
        assert ts[j + 1] == ts[1..][j];
      }
    }
  }

  /** Every task is untouched and no identifier is held by two slots. */
  ghost predicate FreshList(aggs: seq<AggTask>) {
    && (forall p :: 0 <= p < |aggs| ==> aggs[p].state == Unprocessed)
    && (forall p, j, q, i, id :: HoldsId(aggs, p, j, id) && HoldsId(aggs, q, i, id) ==> p == q && j == i)
  }

  /** after is before with exactly the slots naming one of ids emptied. */
  ghost predicate Emptied(before: seq<AggTask>, after: seq<AggTask>, ids: seq<TaskId>) {
    && |after| == |before|
    && forall p :: 0 <= p < |before| ==> EmptiedTask(before[p], after[p], ids)
  }

  ghost predicate EmptiedTask(before: AggTask, after: AggTask, ids: seq<TaskId>) {
    && after == before.(childs := after.childs)
    && |after.childs| == |before.childs|
    && forall j :: 0 <= j < |before.childs| ==>
         after.childs[j] == if before.childs[j].Some? && before.childs[j].value in ids then None else before.childs[j]
  }

  lemma {:induction false} ClearOneOf(aggs: seq<AggTask>, id: TaskId)
    requires FreshList(aggs)
    ensures Emptied(aggs, ClearAgg(aggs, id), [id])
  {
    if p, j :| HoldsId(aggs, p, j, id) {
      assert forall q, i :: HoldsId(aggs, q, i, id) ==> q == p && i == j;
      ClearAggAt(aggs, id, p, j);
      forall q | 0 <= q < |aggs|
        ensures EmptiedTask(aggs[q], ClearAgg(aggs, id)[q], [id])
      {
        forall i | 0 <= i < |aggs[q].childs| && aggs[q].childs[i] == Some(id)
          ensures q == p && i == j
        {
          assert HoldsId(aggs, q, i, id);
        }
      }
    } else {
      ClearAggNowhere(aggs, id);
      forall q, i | 0 <= q < |aggs| && 0 <= i < |aggs[q].childs|
        ensures aggs[q].childs[i] != Some(id)
      {
        assert !HoldsId(aggs, q, i, id);
      }
    }
  }

  lemma EmptiedFresh(before: seq<AggTask>, after: seq<AggTask>, ids: seq<TaskId>)
    requires FreshList(before) && Emptied(before, after, ids)
    ensures FreshList(after)
  {
    forall p | 0 <= p < |after|
      ensures after[p].state == Unprocessed
    {
      assert EmptiedTask(before[p], after[p], ids);
    }
    forall p, j, id | HoldsId(after, p, j, id)
      ensures HoldsId(before, p, j, id)
    {
      assert EmptiedTask(before[p], after[p], ids);
    }
  }

  lemma {:induction false} ClearAllEmpties(aggs: seq<AggTask>, ids: seq<TaskId>)
    requires FreshList(aggs)
    ensures Emptied(aggs, ClearAll(aggs, ids), ids)
    decreases |ids|
  {
    if ids != [] {
      var aggs1 := ClearAgg(aggs, ids[0]);
      ClearOneOf(aggs, ids[0]);
      EmptiedFresh(aggs, aggs1, [ids[0]]);
      ClearAllEmpties(aggs1, ids[1..]);
      var aggs2 := ClearAll(aggs1, ids[1..]);
      forall p | 0 <= p < |aggs|
        ensures EmptiedTask(aggs[p], aggs2[p], ids)
      {
        assert EmptiedTask(aggs[p], aggs1[p], [ids[0]]);
        assert EmptiedTask(aggs1[p], aggs2[p], ids[1..]);
        assert ids == [ids[0]] + ids[1..];
      }
    }
  }

  // The tree

  /** The state right after gen_agg_tasks: every slot is full. */
  ghost predicate JustBuilt(s: StageState) {
    && Built(s) && |s.aggTasks| == |Plan(|s.proveTasks|)|
    && forall p :: 0 <= p < |s.aggTasks| ==>
         && s.aggTasks[p].state == Unprocessed
         && AggFixed(s, p)
         && SlotsFull(s, p)
  }

  ghost predicate SlotsFull(s: StageState, p: nat)
    requires InTree(s, p)
  {
    var t, kids := s.aggTasks[p], Kids(s, p);
    if t.isDeferred then t.childs == []
    else |t.childs| == |kids| && forall j :: 0 <= j < |kids| ==> t.childs[j] == Some(IdOf(s, kids[j]))
  }

  lemma {:induction false} BuiltTask(s: StageState, s1: StageState, p: nat)
    requires s1 == s.(aggTasks := s1.aggTasks, nextId := s1.nextId, tasksGenDone := true)
    requires InTree(s1, p) && Base(s1) == s.nextId
    requires s1.aggTasks[p] == AggTaskAt(s.proveTasks, s.nextId, p).(isFinal := p + 1 == |s1.aggTasks|)
    ensures AggFixed(s1, p) && SlotsFull(s1, p) && s1.aggTasks[p].state == Unprocessed
  {
    assert Kids(s1, p) == Plan(|s.proveTasks|)[p];
  }

  /** The tree as gen_agg_tasks leaves it: the planned tasks, the last one final. */
  ghost predicate TreeOver(s: StageState, s1: StageState) {
    && s1 == s.(aggTasks := s1.aggTasks, nextId := s1.nextId, tasksGenDone := true)
    && |s1.aggTasks| == |Plan(|s.proveTasks|)| && s1.nextId == s.nextId + |s1.aggTasks|
    && forall p :: 0 <= p < |s1.aggTasks| ==>
         s1.aggTasks[p] == AggTaskAt(s.proveTasks, s.nextId, p).(isFinal := p + 1 == |s1.aggTasks|)
  }

  lemma {:induction false} FinalOnlyIfAlone(leaves: seq<ProveTask>, base: TaskId, p: nat)
    requires p < |Plan(|leaves|)| && AggTaskAt(leaves, base, p).isFinal
    ensures p + 1 == |Plan(|leaves|)|
  {
    PlanSize(|leaves|);
  }

  lemma {:induction false} TreeMarked(leaves: seq<ProveTask>, base: TaskId)
    ensures var tree := TreePrefix(leaves, base, |Plan(|leaves|)|);
      && |MarkFinal(tree)| == |tree|
      && forall p :: 0 <= p < |tree| ==>
           MarkFinal(tree)[p] == AggTaskAt(leaves, base, p).(isFinal := p + 1 == |tree|)
  {
    var tree := TreePrefix(leaves, base, |Plan(|leaves|)|);
    forall p | 0 <= p < |tree| && tree[p].isFinal
      ensures p + 1 == |tree|
    {
      FinalOnlyIfAlone(leaves, base, p);
    }
    MarkedLast(tree);
  }

  lemma GenAggOnEmpty(s: StageState)
    requires s.aggTasks == []
    ensures var tree := TreeTasks(s.proveTasks, s.nextId);
      GenAgg(s) == s.(aggTasks := MarkFinal(tree), nextId := s.nextId + |tree|)
  {
    assert s.aggTasks + TreeTasks(s.proveTasks, s.nextId) == TreeTasks(s.proveTasks, s.nextId);
  }

  lemma {:induction false} GenAggTree(s: StageState)
    requires s.aggTasks == [] && LeafTasks(s.proveTasks) == s.proveTasks
    ensures TreeOver(s, GenAgg(s).(tasksGenDone := true))
  {
    GenAggOnEmpty(s);
    TreeMarked(s.proveTasks, s.nextId);
  }

  lemma MarkedLast(aggs: seq<AggTask>)
    requires forall p :: 0 <= p < |aggs| && aggs[p].isFinal ==> p + 1 == |aggs|
    ensures |MarkFinal(aggs)| == |aggs|
    ensures forall p :: 0 <= p < |aggs| ==> MarkFinal(aggs)[p] == aggs[p].(isFinal := p + 1 == |aggs|)
  {
  }

  lemma {:induction false} TreeOverIds(s: StageState, s1: StageState)
    requires s.aggTasks == [] && IdsOk(s) && ProvesOk(s.(tasksGenDone := true)) && TreeOver(s, s1)
    ensures Base(s1) == s.nextId && IdsOk(s1) && ProvesOk(s1)
  {
    assert forall p :: 0 <= p < |s1.aggTasks| ==> s1.aggTasks[p].taskId == s.nextId + p;
  }

  lemma {:induction false} GenAggBuilds(s: StageState)
    requires s.aggTasks == [] && IdsOk(s) && ProvesOk(s.(tasksGenDone := true)) && !s.gen.compositeProof
    ensures var s1 := GenAgg(s).(tasksGenDone := true); IdsOk(s1) && ProvesOk(s1) && JustBuilt(s1)
  {
    var s1 := GenAgg(s).(tasksGenDone := true);
    LeafOrder(s.proveTasks);
    GenAggTree(s);
    TreeOverIds(s, s1);
    forall p | 0 <= p < |s1.aggTasks|
      ensures AggFixed(s1, p) && SlotsFull(s1, p) && s1.aggTasks[p].state == Unprocessed
    {
      BuiltTask(s, s1, p);
    }
  }

  lemma {:induction false} JustBuiltFresh(s: StageState)
    requires JustBuilt(s) && IdsOk(s)
    ensures FreshList(s.aggTasks)
  {
    var L := |s.proveTasks|;
    forall p, j, id | HoldsId(s.aggTasks, p, j, id)
      ensures IsSlot(Plan(L), p, j) && IdOf(s, Plan(L)[p][j]) == id && Plan(L)[p][j] < L + |s.aggTasks|
      ensures ParentSlot(L, Plan(L)[p][j]) == (p, j)
    {
      assert SlotsFull(s, p);
      assert Kids(s, p)[j] == Plan(L)[p][j];
      OneParent(L, p, j);
    }
    forall p, j, q, i, id | HoldsId(s.aggTasks, p, j, id) && HoldsId(s.aggTasks, q, i, id)
      ensures p == q && j == i
    {
      NodeIdsDiffer(s, Plan(L)[p][j], Plan(L)[q][i]);
    }
  }

  /** Telling a just-built list which prove tasks are done yields the slot invariant. */
  lemma {:induction false} ClearedTree(s: StageState, s1: StageState)
    requires JustBuilt(s) && IdsOk(s) && ProvesOk(s)
    requires s1 == s.(aggTasks := ClearAll(s.aggTasks, SuccessfulIds(s.proveTasks)))
    ensures TasksOk(s1)
  {
    var ids := SuccessfulIds(s.proveTasks);
    JustBuiltFresh(s);
    ClearAllEmpties(s.aggTasks, ids);
    forall p | 0 <= p < |s.aggTasks|
      ensures s1.aggTasks[p] == s.aggTasks[p].(childs := s1.aggTasks[p].childs)
    {
      assert EmptiedTask(s.aggTasks[p], s1.aggTasks[p], ids);
    }
    SlotsOnly(s, s1);
    forall p | 0 <= p < |s1.aggTasks|
      ensures AggFixed(s1, p) && SlotsOk(s1, p) && ProgressOk(s1, p)
    {
      assert AggFixed(s, p);
      FixedKept(s, s1, p);
      assert EmptiedTask(s.aggTasks[p], s1.aggTasks[p], ids);
      ClearedSlots(s, s1, p);
    }
  }

  lemma {:induction false} ClearedSlots(s: StageState, s1: StageState, p: nat)
    requires JustBuilt(s) && IdsOk(s) && InTree(s, p)
    requires SameTasks(s, s1)
    requires forall y :: 0 <= y < |s.proveTasks| + |s.aggTasks| ==> NodeDone(s1, y) == NodeDone(s, y)
    requires EmptiedTask(s.aggTasks[p], s1.aggTasks[p], SuccessfulIds(s.proveTasks))
    ensures SlotsOk(s1, p)
  {
    var kids := Kids(s, p);
    assert Kids(s1, p) == kids;
    assert SlotsFull(s, p);
    forall j | 0 <= j < |kids|
      ensures NodeDone(s, kids[j]) <==> IdOf(s, kids[j]) in SuccessfulIds(s.proveTasks)
    {
      DoneIffListed(s, kids[j]);
    }
  }

  lemma {:induction false} DoneIffListed(s: StageState, x: nat)
    requires JustBuilt(s) && IdsOk(s) && x < |s.proveTasks| + |s.aggTasks|
    ensures NodeDone(s, x) <==> IdOf(s, x) in SuccessfulIds(s.proveTasks)
  {
    SuccessfulIdsMeaning(s.proveTasks, IdOf(s, x));
  }

  lemma {:induction false} TreeTold(s: StageState)
    requires s.aggTasks == [] && IdsOk(s) && ProvesOk(s.(tasksGenDone := true))
    ensures TasksOk(TellDone(GenTree(s)))
  {
    if s.gen.compositeProof {
      ClearAllNothing(SuccessfulIds(s.proveTasks));
    } else {
      GenAggBuilds(s);
      ClearedTree(GenTree(s), TellDone(GenTree(s)));
    }
  }

  lemma {:induction false} GenTasksKeeps(s: StageState, listing: seq<DirEntry>)
    requires TasksOk(s) && !s.tasksGenDone && ListingOk(listing)
    ensures TasksOk(GenTasks(s, listing))
  {
    GenProvePostKeeps(s, listing);
    TreeTold(GenProvePost(s, listing));
  }

  lemma {:induction false} ClearAllNothing(ids: seq<TaskId>)
    ensures ClearAll([], ids) == []
    decreases |ids|
  {
    if ids != [] {
      ClearAllNothing(ids[1..]);
    }
  }

  lemma GenTasksList(s: StageState, listing: seq<DirEntry>)
    ensures GenTasks(s, listing).proveTasks
         == Fit(s).proveTasks + DeferredTasks(SortByNumber(FilesIn(listing)), Fit(s).nextId)
  {
  }
}
