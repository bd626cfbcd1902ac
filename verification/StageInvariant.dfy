/** What every operation of a stage keeps: identifiers are unique, finished tasks carry
    the right receipts, and a dependency slot is empty exactly when its task is done. */
module StageInvariant {
  import opened Receipts
  import opened AggPlan
  import opened Tasks
  import opened StageSpec

  predicate Built(s: StageState) {
    s.tasksGenDone && !s.gen.compositeProof
  }

  /** The identifier of the first aggregation task. */
  function Base(s: StageState): TaskId {
    if s.aggTasks == [] then s.nextId else s.aggTasks[0].taskId
  }

  ghost predicate IdsOk(s: StageState) {
    && (forall i, j :: 0 <= i < j < |s.proveTasks| ==> s.proveTasks[i].taskId != s.proveTasks[j].taskId)
    && (forall i :: 0 <= i < |s.proveTasks| ==> s.proveTasks[i].taskId < Base(s))
    && (forall p :: 0 <= p < |s.aggTasks| ==> s.aggTasks[p].taskId == Base(s) + p)
    && Base(s) + |s.aggTasks| <= s.nextId
  }

  /** The receipt a prove task contributes once it is done. */
  function LeafReceipt(t: ProveTask): Receipt {
    if t.isDeferred then t.output else SegmentProof(t.fileNo)
  }

  function LeafReceipts(ts: seq<ProveTask>): (rs: seq<Receipt>)
    ensures |rs| == |ts|
  {
    seq(|ts|, i requires 0 <= i < |ts| => LeafReceipt(ts[i]))
  }

  ghost predicate ProveOk(t: ProveTask, i: nat) {
    && t.state != Initial
    && t.failureCount <= MAX_FAILURES
    && (t.isDeferred ==> t.state == Success && IsLeaf(t.output))
    && (!t.isDeferred ==> t.fileNo == i)
    && (t.state == Success ==> t.output == LeafReceipt(t))
  }

  ghost predicate ProvesOk(s: StageState) {
    && (forall i :: 0 <= i < |s.proveTasks| ==> ProveOk(s.proveTasks[i], i))
    && (forall i, j :: 0 <= i < j < |s.proveTasks| && s.proveTasks[i].isDeferred ==> s.proveTasks[j].isDeferred)
    && (!s.tasksGenDone ==> forall i :: 0 <= i < |s.proveTasks| ==> !s.proveTasks[i].isDeferred)
  }

  predicate NodeDone(s: StageState, x: nat)
    requires x < |s.proveTasks| + |s.aggTasks|
  {
    if x < |s.proveTasks| then s.proveTasks[x].state == Success
    else s.aggTasks[x - |s.proveTasks|].state == Success
  }

  function IdOf(s: StageState, x: nat): TaskId {
    NodeId(s.proveTasks, Base(s), x)
  }

  ghost predicate InTree(s: StageState, p: int) {
    0 <= p < |s.aggTasks| == |Plan(|s.proveTasks|)|
  }

  function Kids(s: StageState, p: nat): (kids: seq<nat>)
    requires InTree(s, p)
    ensures forall j :: 0 <= j < |kids| ==> kids[j] < |s.proveTasks| + p
  {
    PlanKids(|s.proveTasks|);
    var kids := Plan(|s.proveTasks|)[p];
    assert forall j :: 0 <= j < |kids| ==> IsSlot(Plan(|s.proveTasks|), p, j) && kids[j] < |s.proveTasks| + p;
    kids
  }

  /** The fixed part of the task at position p: what it aggregates and where it stands. */
  ghost predicate AggFixed(s: StageState, p: nat)
    requires InTree(s, p)
  {
    var t, kids := s.aggTasks[p], Kids(s, p);
    && |t.inputs| == |kids|
    && (forall j :: 0 <= j < |kids| ==>
         t.inputs[j] == AggregateInput(EMPTY, IdOf(s, kids[j]), p >= |s.proveTasks|))
    && (t.isFinal <==> p + 1 == |s.aggTasks|)
    && (t.isDeferred <==> p < |s.proveTasks| && s.proveTasks[p].isDeferred)
    && t.aggIndex == p
    && Flagged(s, t, p)
  }

  /** The kind of prover the task asks for: over a segment proof or over aggregates, and
      whether it holds the first segment. */
  predicate Flagged(s: StageState, t: AggTask, p: nat) {
    && (t.isLeafLayer <==> p < |s.proveTasks|)
    && (t.isFirstShard <==> p == 0 && p < |s.proveTasks| && !s.proveTasks[p].isDeferred)
    && !t.fromProve
  }

  /** A dependency slot is empty if and only if the task it named is done. */
  ghost predicate SlotsOk(s: StageState, p: nat)
    requires InTree(s, p)
  {
    var t, kids := s.aggTasks[p], Kids(s, p);
    if t.isDeferred then t.childs == []
    else
      && |t.childs| == |kids|
      && forall j :: 0 <= j < |kids| ==>
           t.childs[j] == if NodeDone(s, kids[j]) then None else Some(IdOf(s, kids[j]))
  }

  /** A task only leaves UNPROCESSED once its inputs are done, and then yields their aggregate. */
  ghost predicate ProgressOk(s: StageState, p: nat)
    requires InTree(s, p)
  {
    var t, kids := s.aggTasks[p], Kids(s, p);
    && t.state != Initial
    && (t.state != Unprocessed ==> forall j :: 0 <= j < |kids| ==> NodeDone(s, kids[j]))
    && (t.state == Success ==> t.output == NodeReceipt(LeafReceipts(s.proveTasks), |s.proveTasks| + p))
  }

  ghost predicate TreeOk(s: StageState) {
    && (!Built(s) ==> s.aggTasks == [])
    && (Built(s) ==>
         && |s.aggTasks| == |Plan(|s.proveTasks|)|
         && forall p :: 0 <= p < |s.aggTasks| ==> AggFixed(s, p) && SlotsOk(s, p) && ProgressOk(s, p))
  }

  ghost predicate TasksOk(s: StageState) {
    IdsOk(s) && ProvesOk(s) && TreeOk(s)
  }

  lemma NodeIdsDiffer(s: StageState, x: nat, y: nat)
    requires IdsOk(s) && x < |s.proveTasks| + |s.aggTasks| && y < |s.proveTasks| + |s.aggTasks|
    ensures IdOf(s, x) == IdOf(s, y) ==> x == y
  {
  }

  // Clearing slots

  ghost predicate HoldsId(aggs: seq<AggTask>, p: int, j: int, id: TaskId) {
    0 <= p < |aggs| && 0 <= j < |aggs[p].childs| && aggs[p].childs[j] == Some(id)
  }

  lemma NoHolder(aggs: seq<AggTask>, p: nat, id: TaskId)
    requires p < |aggs| && forall j :: !HoldsId(aggs, p, j, id)
    ensures Some(id) !in aggs[p].childs
  {
    forall j | 0 <= j < |aggs[p].childs|
      ensures aggs[p].childs[j] != Some(id)
    {
      assert !HoldsId(aggs, p, j, id);
    }
  }

  /** Clearing touches nothing but slots. */
  lemma ClearAggKeeps(aggs: seq<AggTask>, id: TaskId)
    ensures |ClearAgg(aggs, id)| == |aggs|
    ensures forall p :: 0 <= p < |aggs| ==>
      ClearAgg(aggs, id)[p] == aggs[p].(childs := ClearAgg(aggs, id)[p].childs)
  {
  }

  lemma ClearAggNowhere(aggs: seq<AggTask>, id: TaskId)
    requires forall p, j :: !HoldsId(aggs, p, j, id)
    ensures ClearAgg(aggs, id) == aggs
  {
    forall p | 0 <= p < |aggs|
      ensures !WaitsFor(aggs[p], id)
    {
      NoHolder(aggs, p, id);
    }
    FirstWhereIs(aggs, WaitingAgg(id), |aggs|);
  }

  /** When one slot only names id, clearing the first match clears it everywhere. */
  lemma ClearAggAt(aggs: seq<AggTask>, id: TaskId, p: nat, j: nat)
    requires HoldsId(aggs, p, j, id) && aggs[p].state == Unprocessed
    requires forall q, i :: HoldsId(aggs, q, i, id) ==> q == p && i == j
    ensures ClearAgg(aggs, id) == aggs[p := aggs[p].(childs := aggs[p].childs[j := None])]
  {
    forall q | 0 <= q < p
      ensures !WaitsFor(aggs[q], id)
    {
      NoHolder(aggs, q, id);
    }
    assert Some(id) in aggs[p].childs;
    FirstWhereIs(aggs, WaitingAgg(id), p);
    var i := FirstIndexOf(aggs[p].childs, Some(id));
    assert HoldsId(aggs, p, i, id);
  }

  /** In the tree, the only slot that can hold the identifier of node x is x's own. */
  lemma {:induction false} HolderIsParent(s: StageState, p: nat, j: nat, x: nat)
    requires TasksOk(s) && Built(s) && x < |s.proveTasks| + |s.aggTasks|
    requires HoldsId(s.aggTasks, p, j, IdOf(s, x))
    ensures IsSlot(Plan(|s.proveTasks|), p, j) && Plan(|s.proveTasks|)[p][j] == x
    ensures (p, j) == ParentSlot(|s.proveTasks|, x) && !NodeDone(s, x)
  {
    assert AggFixed(s, p) && SlotsOk(s, p);
    var kids := Kids(s, p);
    NodeIdsDiffer(s, kids[j], x);
    assert IsSlot(Plan(|s.proveTasks|), p, j);
    OneParent(|s.proveTasks|, p, j);
  }

  /** The same tasks in the same places; states, outputs and slots may differ. */
  ghost predicate SameTasks(s: StageState, s1: StageState) {
    && |s1.proveTasks| == |s.proveTasks| && |s1.aggTasks| == |s.aggTasks| && Base(s1) == Base(s)
    && (forall y :: 0 <= y < |s.proveTasks| + |s.aggTasks| ==> IdOf(s1, y) == IdOf(s, y))
    && (forall i :: 0 <= i < |s.proveTasks| ==> s1.proveTasks[i].isDeferred == s.proveTasks[i].isDeferred)
    && LeafReceipts(s1.proveTasks) == LeafReceipts(s.proveTasks)
  }

  ghost predicate StillDone(s: StageState, s1: StageState)
    requires |s1.proveTasks| == |s.proveTasks| && |s1.aggTasks| == |s.aggTasks|
  {
    forall y :: 0 <= y < |s.proveTasks| + |s.aggTasks| && NodeDone(s, y) ==> NodeDone(s1, y)
  }

  predicate SameAggTask(t: AggTask, t1: AggTask) {
    t1 == t.(state := t1.state, trace := t1.trace, output := t1.output, childs := t1.childs)
  }

  lemma {:induction false} FixedKept(s: StageState, s1: StageState, p: nat)
    requires InTree(s, p) && AggFixed(s, p) && SameTasks(s, s1)
    requires SameAggTask(s.aggTasks[p], s1.aggTasks[p])
    ensures AggFixed(s1, p)
  {
    assert Kids(s1, p) == Kids(s, p);
  }

  /** The slots of p that name x are empty in s1, all others are as in s. */
  ghost predicate SlotsEmptied(s: StageState, s1: StageState, x: nat, p: nat)
    requires InTree(s, p) && |s1.aggTasks| == |s.aggTasks|
  {
    var kids, childs, childs1 := Kids(s, p), s.aggTasks[p].childs, s1.aggTasks[p].childs;
    && |childs1| == |childs|
    && forall j :: 0 <= j < |kids| && j < |childs| ==>
         childs1[j] == if kids[j] == x then None else childs[j]
  }

  ghost predicate DoneBecause(s: StageState, s1: StageState, x: nat)
    requires |s1.proveTasks| == |s.proveTasks| && |s1.aggTasks| == |s.aggTasks|
  {
    forall y :: 0 <= y < |s.proveTasks| + |s.aggTasks| ==> NodeDone(s1, y) == (NodeDone(s, y) || y == x)
  }

  /** Slots stay right when exactly those of the newly done node x are emptied. */
  lemma {:induction false} SlotsKept(s: StageState, s1: StageState, x: nat, p: nat)
    requires InTree(s, p) && SlotsOk(s, p) && SameTasks(s, s1) && DoneBecause(s, s1, x)
    requires SameAggTask(s.aggTasks[p], s1.aggTasks[p]) && SlotsEmptied(s, s1, x, p)
    ensures SlotsOk(s1, p)
  {
    assert Kids(s1, p) == Kids(s, p);
  }

  lemma {:induction false} ProgressKept(s: StageState, s1: StageState, p: nat)
    requires InTree(s, p) && ProgressOk(s, p) && SameTasks(s, s1) && StillDone(s, s1)
    requires s1.aggTasks[p].state == s.aggTasks[p].state && s1.aggTasks[p].output == s.aggTasks[p].output
    ensures ProgressOk(s1, p)
  {
    assert Kids(s1, p) == Kids(s, p);
  }

  /** s1 differs from s only in that node x, which was in progress, is now done. */
  ghost predicate BecameDone(s: StageState, s1: StageState, x: nat)
    requires x < |s.proveTasks| + |s.aggTasks| && |s.aggTasks| == |Plan(|s.proveTasks|)|
  {
    && s1 == s.(proveTasks := s1.proveTasks, aggTasks := s1.aggTasks)
    && |s1.proveTasks| == |s.proveTasks| && |s1.aggTasks| == |s.aggTasks|
    && (forall i :: 0 <= i < |s.proveTasks| && i != x ==> s1.proveTasks[i] == s.proveTasks[i])
    && (forall p :: 0 <= p < |s.aggTasks| && |s.proveTasks| + p != x ==> s1.aggTasks[p] == s.aggTasks[p])
    && !NodeDone(s, x) && NodeDone(s1, x)
    && (x < |s.proveTasks| ==>
         var t, t1 := s.proveTasks[x], s1.proveTasks[x];
         t1.taskId == t.taskId && t1.fileNo == t.fileNo && !t1.isDeferred && !t.isDeferred)
    && (x >= |s.proveTasks| ==>
         var t, t1 := s.aggTasks[x - |s.proveTasks|], s1.aggTasks[x - |s.proveTasks|];
         && t1 == t.(state := Success, trace := t1.trace, output := t1.output)
         && t1.output == NodeReceipt(LeafReceipts(s.proveTasks), x)
         && t.state == Processing)
  }

  lemma {:induction false} BecameDoneKeepsNames(s: StageState, s1: StageState, x: nat)
    requires TasksOk(s) && Built(s) && x < |s.proveTasks| + |s.aggTasks| && BecameDone(s, s1, x)
    ensures SameTasks(s, s1)
    ensures forall y :: 0 <= y < |s.proveTasks| + |s.aggTasks| && y != x ==> NodeDone(s1, y) == NodeDone(s, y)
  {
  }

  /** Telling the list that node x is done empties exactly the slot of x's parent. */
  lemma {:induction false} ClearedList(s: StageState, s1: StageState, x: nat)
    requires TasksOk(s) && Built(s) && x < |s.proveTasks| + |s.aggTasks| && BecameDone(s, s1, x)
    ensures x + 1 == |s.proveTasks| + |s.aggTasks| ==> ClearAgg(s1.aggTasks, IdOf(s, x)) == s1.aggTasks
    ensures x + 1 < |s.proveTasks| + |s.aggTasks| ==>
      var (p, j) := ParentSlot(|s.proveTasks|, x);
      && p < |s.aggTasks| && j < |s1.aggTasks[p].childs| && |s.proveTasks| + p != x
      && ClearAgg(s1.aggTasks, IdOf(s, x))
           == s1.aggTasks[p := s1.aggTasks[p].(childs := s1.aggTasks[p].childs[j := None])]
  {
    var L, id := |s.proveTasks|, IdOf(s, x);
    forall q, i | HoldsId(s1.aggTasks, q, i, id)
      ensures HoldsId(s.aggTasks, q, i, id)
      ensures (q, i) == ParentSlot(L, x) && IsSlot(Plan(L), q, i) && Plan(L)[q][i] == x
    {
      HolderIsParent(s, q, i, x);
    }
    if x + 1 == L + |s.aggTasks| {
      PlanKids(L);
      assert forall q, i :: !HoldsId(s1.aggTasks, q, i, id);
      ClearAggNowhere(s1.aggTasks, id);
    } else {
      UniqueParent(L, x);
      PlanKids(L);
      var (p, j) := ParentSlot(L, x);
      assert AggFixed(s, p) && SlotsOk(s, p) && ProgressOk(s, p);
      assert Kids(s, p)[j] == x;
      assert HoldsId(s1.aggTasks, p, j, id);
      ClearAggAt(s1.aggTasks, id, p, j);
    }
  }

  ghost predicate IsDoneStep(s: StageState, s1: StageState, s2: StageState, x: nat) {
    && TasksOk(s) && Built(s) && |s.aggTasks| > 0 && x < |s.proveTasks| + |s.aggTasks| && BecameDone(s, s1, x)
    && s2 == s1.(aggTasks := ClearAgg(s1.aggTasks, IdOf(s, x)))
  }

  lemma {:induction false} SlotsOnly(s: StageState, s1: StageState)
    requires s1 == s.(aggTasks := s1.aggTasks) && |s1.aggTasks| == |s.aggTasks|
    requires forall p :: 0 <= p < |s.aggTasks| ==> s1.aggTasks[p] == s.aggTasks[p].(childs := s1.aggTasks[p].childs)
    ensures SameTasks(s, s1)
    ensures forall y :: 0 <= y < |s.proveTasks| + |s.aggTasks| ==> NodeDone(s1, y) == NodeDone(s, y)
  {
  }

  /** Only dependency slots distinguish s2 from s1. */
  lemma {:induction false} DoneStepNames(s: StageState, s1: StageState, s2: StageState, x: nat)
    requires IsDoneStep(s, s1, s2, x)
    ensures SameTasks(s, s2) && DoneBecause(s, s2, x)
    ensures forall p :: 0 <= p < |s.aggTasks| ==>
      s2.aggTasks[p] == s1.aggTasks[p].(childs := s2.aggTasks[p].childs)
  {
    BecameDoneKeepsNames(s, s1, x);
    ClearAggKeeps(s1.aggTasks, IdOf(s, x));
    SlotsOnly(s1, s2);
  }

  lemma {:induction false} OnlyParentNames(n: nat, p: nat, j: nat, x: nat)
    requires IsSlot(Plan(n), p, j)
    ensures Plan(n)[p][j] == x <==> x + 1 < n + |Plan(n)| && (p, j) == ParentSlot(n, x)
  {
    OneParent(n, p, j);
    PlanKids(n);
    if x + 1 < n + |Plan(n)| {
      UniqueParent(n, x);
    }
  }

  /** The list of s2 is that of s1 with x's slot, if there is one, emptied. */
  ghost predicate ParentTold(s: StageState, s1: StageState, s2: StageState, x: nat) {
    && |s1.aggTasks| == |s.aggTasks|
    && (x + 1 >= |s.proveTasks| + |s.aggTasks| ==> s2.aggTasks == s1.aggTasks)
    && (x + 1 < |s.proveTasks| + |s.aggTasks| ==>
         var (p, j) := ParentSlot(|s.proveTasks|, x);
         && p < |s.aggTasks| && j < |s1.aggTasks[p].childs|
         && s2.aggTasks == s1.aggTasks[p := s1.aggTasks[p].(childs := s1.aggTasks[p].childs[j := None])])
  }

  lemma {:induction false} ParentEmptied(s: StageState, s1: StageState, s2: StageState, x: nat, p: nat)
    requires InTree(s, p) && ParentTold(s, s1, s2, x) && s1.aggTasks[p].childs == s.aggTasks[p].childs
    ensures |s2.aggTasks| == |s.aggTasks| && SlotsEmptied(s, s2, x, p)
  {
    var kids := Kids(s, p);
    forall j | 0 <= j < |kids|
      ensures kids[j] == x <==> x + 1 < |s.proveTasks| + |s.aggTasks| && (p, j) == ParentSlot(|s.proveTasks|, x)
    {
      OnlyParentNames(|s.proveTasks|, p, j, x);
    }
  }

  lemma {:induction false} DoneStepSlots(s: StageState, s1: StageState, s2: StageState, x: nat, p: nat)
    requires IsDoneStep(s, s1, s2, x) && p < |s.aggTasks|
    ensures |s2.aggTasks| == |s.aggTasks|
    ensures SlotsEmptied(s, s2, x, p)
  {
    ClearedList(s, s1, x);
    ParentEmptied(s, s1, s2, x, p);
  }

  lemma {:induction false} DoneProgress(s: StageState, s1: StageState, s2: StageState, x: nat, p: nat)
    requires InTree(s, p) && ProgressOk(s, p) && SameTasks(s, s2) && DoneBecause(s, s2, x)
    requires x < |s.proveTasks| + |s.aggTasks| && BecameDone(s, s1, x)
    requires s2.aggTasks[p] == s1.aggTasks[p].(childs := s2.aggTasks[p].childs)
    ensures ProgressOk(s2, p) && SameAggTask(s.aggTasks[p], s2.aggTasks[p])
  {
    if |s.proveTasks| + p != x {
      ProgressKept(s, s2, p);
    } else {
      assert Kids(s2, p) == Kids(s, p);
    }
  }

  lemma {:induction false} DoneStepRest(s: StageState, s1: StageState, s2: StageState, x: nat)
    requires IsDoneStep(s, s1, s2, x) && (x < |s.proveTasks| ==> ProveOk(s1.proveTasks[x], x))
    ensures IdsOk(s2) && ProvesOk(s2)
  {
    ClearAggKeeps(s1.aggTasks, IdOf(s, x));
    assert forall p :: 0 <= p < |s.aggTasks| ==> s2.aggTasks[p].taskId == s.aggTasks[p].taskId;
    IdsKept(s, s2);
  }

  lemma IdsKept(s: StageState, s1: StageState)
    requires IdsOk(s) && s1.nextId >= s.nextId
    requires |s1.proveTasks| == |s.proveTasks| && |s1.aggTasks| == |s.aggTasks| > 0
    requires forall i :: 0 <= i < |s.proveTasks| ==> s1.proveTasks[i].taskId == s.proveTasks[i].taskId
    requires forall p :: 0 <= p < |s.aggTasks| ==> s1.aggTasks[p].taskId == s.aggTasks[p].taskId
    ensures IdsOk(s1)
  {
  }

  /** A task's completion, told to the list, keeps the invariant. */
  lemma {:induction false} DoneStep(s: StageState, s1: StageState, s2: StageState, x: nat)
    requires IsDoneStep(s, s1, s2, x) && (x < |s.proveTasks| ==> ProveOk(s1.proveTasks[x], x))
    ensures TasksOk(s2) && Base(s2) == Base(s) && |s2.aggTasks| == |s.aggTasks|
  {
    DoneStepRest(s, s1, s2, x);
    DoneStepNames(s, s1, s2, x);
    forall p | 0 <= p < |s2.aggTasks|
      ensures AggFixed(s2, p) && SlotsOk(s2, p) && ProgressOk(s2, p)
    {
      assert AggFixed(s, p) && SlotsOk(s, p) && ProgressOk(s, p);
      DoneProgress(s, s1, s2, x, p);
      FixedKept(s, s2, p);
      DoneStepSlots(s, s1, s2, x, p);
      SlotsKept(s, s2, x, p);
    }
  }
}
