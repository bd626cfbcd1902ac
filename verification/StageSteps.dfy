/** Each operation of a stage keeps TasksOk. */
module StageSteps {
  import opened Receipts
  import opened AggPlan
  import opened DeferredFiles
  import opened Tasks
  import opened StageSpec
  import opened StageInvariant

  /** What a prove message must look like: its listed task is being processed. */
  ghost predicate ProveMessageOk(s: StageState, m: ProveTask) {
    && m.taskId < Base(s)
    && (forall i :: 0 <= i < |s.proveTasks| && s.proveTasks[i].taskId == m.taskId ==>
         s.proveTasks[i].state == Processing && s.proveTasks[i].fileNo == m.fileNo)
    && (m.state == Success ==> m.output == SegmentProof(m.fileNo))
  }

  ghost predicate AggMessageOk(s: StageState, m: AggTask) {
    && Built(s)
    && var p := m.taskId - Base(s);
    && InTree(s, p)
    && s.aggTasks[p].state == Processing && m.isFinal == s.aggTasks[p].isFinal
    && (m.state == Success ==> m.output == NodeReceipt(LeafReceipts(s.proveTasks), |s.proveTasks| + p))
  }

  // Steps that finish no task

  /** The same tasks, equally done, with the same slots. */
  ghost predicate Touched(s: StageState, s1: StageState) {
    && s1.gen == s.gen && s1.tasksGenDone == s.tasksGenDone && s1.nextId >= s.nextId
    && SameTasks(s, s1)
    && (forall y :: 0 <= y < |s.proveTasks| + |s.aggTasks| ==> NodeDone(s1, y) == NodeDone(s, y))
    && (forall p :: 0 <= p < |s.aggTasks| ==>
         SameAggTask(s.aggTasks[p], s1.aggTasks[p]) && s1.aggTasks[p].childs == s.aggTasks[p].childs)
  }

  lemma {:induction false} TouchedTask(s: StageState, s1: StageState, p: nat)
    requires Touched(s, s1) && InTree(s, p)
    requires AggFixed(s, p) && SlotsOk(s, p)
    ensures AggFixed(s1, p) && SlotsOk(s1, p)
  {
    FixedKept(s, s1, p);
    SlotsKept(s, s1, |s.proveTasks| + |s.aggTasks|, p);
  }

  lemma {:induction false} TouchedTree(s: StageState, s1: StageState)
    requires Touched(s, s1) && TreeOk(s)
    requires forall p :: InTree(s, p) && ProgressOk(s, p) ==> ProgressOk(s1, p)
    ensures TreeOk(s1)
  {
    if Built(s) {
      forall p | 0 <= p < |s.aggTasks|
        ensures AggFixed(s1, p) && SlotsOk(s1, p) && ProgressOk(s1, p)
      {
        assert InTree(s, p) && AggFixed(s, p) && SlotsOk(s, p) && ProgressOk(s, p);
        TouchedTask(s, s1, p);
      }
    }
  }

  /** A prove task that is not done changes into another that is not done. */
  lemma {:induction false} ProveTouched(s: StageState, s1: StageState, i: nat)
    requires TasksOk(s) && i < |s.proveTasks| && |s1.proveTasks| == |s.proveTasks|
    requires s1 == s.(proveTasks := s.proveTasks[i := s1.proveTasks[i]], isError := s1.isError)
    requires s.proveTasks[i].state != Success && s1.proveTasks[i].state != Success
    requires ProveOk(s1.proveTasks[i], i)
    requires s1.proveTasks[i].taskId == s.proveTasks[i].taskId && !s1.proveTasks[i].isDeferred
    ensures TasksOk(s1) && Base(s1) == Base(s)
  {
    assert ProveOk(s.proveTasks[i], i);
    assert LeafReceipts(s1.proveTasks) == LeafReceipts(s.proveTasks);
    forall p | InTree(s, p) && ProgressOk(s, p)
      ensures ProgressOk(s1, p)
    {
      ProgressKept(s, s1, p);
    }
    TouchedTree(s, s1);
  }

  /** An agg task that is not done changes into another that is not done. */
  lemma {:induction false} AggTouched(s: StageState, s1: StageState, p: nat)
    requires TasksOk(s) && p < |s.aggTasks| && |s1.aggTasks| == |s.aggTasks|
    requires s1 == s.(aggTasks := s.aggTasks[p := s1.aggTasks[p]], isError := s1.isError)
    requires SameAggTask(s.aggTasks[p], s1.aggTasks[p]) && s1.aggTasks[p].childs == s.aggTasks[p].childs
    requires s.aggTasks[p].state != Success && s1.aggTasks[p].state != Success && s1.aggTasks[p].state != Initial
    requires InTree(s, p)
    requires s1.aggTasks[p].state != Unprocessed ==> forall j :: 0 <= j < |Kids(s, p)| ==> NodeDone(s, Kids(s, p)[j])
    ensures TasksOk(s1) && Base(s1) == Base(s)
  {
    AggTouchedNames(s, s1, p);
    forall q | InTree(s, q) && ProgressOk(s, q)
      ensures ProgressOk(s1, q)
    {
      if q == p {
        assert Kids(s1, q) == Kids(s, q);
      } else {
        ProgressKept(s, s1, q);
      }
    }
    TouchedTree(s, s1);
  }

  lemma {:induction false} AggTouchedNames(s: StageState, s1: StageState, p: nat)
    requires p < |s.aggTasks| && |s1.aggTasks| == |s.aggTasks|
    requires s1 == s.(aggTasks := s.aggTasks[p := s1.aggTasks[p]], isError := s1.isError)
    requires SameAggTask(s.aggTasks[p], s1.aggTasks[p]) && s1.aggTasks[p].childs == s.aggTasks[p].childs
    requires s.aggTasks[p].state != Success && s1.aggTasks[p].state != Success
    ensures Touched(s, s1) && StillDone(s, s1)
  {
  }

  // Prove tasks

  lemma {:induction false} GetProveKeeps(s: StageState, segments: set<nat>, now: nat)
    requires TasksOk(s)
    ensures TasksOk(GetProve(s, segments, now).0) && Base(GetProve(s, segments, now).0) == Base(s)
  {
    var i := FirstWhere(s.proveTasks, ReadyProve(segments));
    if i < |s.proveTasks| {
      assert ProveOk(s.proveTasks[i], i);
      ProveTouched(s, GetProve(s, segments, now).0, i);
    }
  }

  lemma {:induction false} UnlistedIdWaitsNowhere(s: StageState, id: TaskId)
    requires TasksOk(s) && id < Base(s)
    requires forall i :: 0 <= i < |s.proveTasks| ==> s.proveTasks[i].taskId != id
    ensures ClearAgg(s.aggTasks, id) == s.aggTasks
  {
    forall p, j | 0 <= p < |s.aggTasks| && 0 <= j < |s.aggTasks[p].childs|
      ensures s.aggTasks[p].childs[j] != Some(id)
    {
      assert SlotsOk(s, p);
    }
    assert forall p, j :: !HoldsId(s.aggTasks, p, j, id);
    ClearAggNowhere(s.aggTasks, id);
  }

  lemma {:induction false} ProveDoneKeeps(s: StageState, m: ProveTask, now: nat, i: nat)
    requires TasksOk(s) && i < |s.proveTasks| && i == FirstWhere(s.proveTasks, RunningProve(m.taskId))
    requires s.proveTasks[i].fileNo == m.fileNo
    requires m.state == Success && m.output == SegmentProof(m.fileNo)
    ensures TasksOk(OnProve(s, m, now)) && Base(OnProve(s, m, now)) == Base(s)
  {
    assert ProveOk(s.proveTasks[i], i);
    var s1, s2 := AcceptProve(s, m, now), OnProve(s, m, now);
    assert ProveOk(s1.proveTasks[i], i);
    if Built(s) {
      DoneStep(s, s1, s2, i);
    } else {
      assert s2.aggTasks == [];
      ProveDoneUnbuilt(s, s2, i);
    }
  }

  lemma {:induction false} ProveDoneUnbuilt(s: StageState, s1: StageState, i: nat)
    requires TasksOk(s) && !Built(s) && i < |s.proveTasks| == |s1.proveTasks| && ProveOk(s1.proveTasks[i], i)
    requires s1 == s.(proveTasks := s.proveTasks[i := s1.proveTasks[i]])
    requires s1.proveTasks[i].taskId == s.proveTasks[i].taskId
    requires s1.proveTasks[i].isDeferred == s.proveTasks[i].isDeferred
    ensures TasksOk(s1) && Base(s1) == Base(s)
  {
  }

  lemma {:induction false} OnProveKeeps(s: StageState, m: ProveTask, now: nat)
    requires TasksOk(s) && ProveMessageOk(s, m)
    ensures TasksOk(OnProve(s, m, now)) && Base(OnProve(s, m, now)) == Base(s)
  {
    var i := FirstWhere(s.proveTasks, RunningProve(m.taskId));
    if i == |s.proveTasks| {
      UnlistedIdWaitsNowhere(s, m.taskId);
    } else if m.state == Success {
      ProveDoneKeeps(s, m, now, i);
    } else if Accepted(m.state) {
      assert ProveOk(s.proveTasks[i], i);
      ProveTouched(s, OnProve(s, m, now), i);
    }
  }

  // Aggregation tasks

  /** An unblocked task's inputs are all done. */
  lemma {:induction false} UnblockedKidsDone(s: StageState, p: nat)
    requires TasksOk(s) && p < |s.aggTasks| && Unblocked(s.aggTasks[p])
    ensures InTree(s, p)
    ensures forall j :: 0 <= j < |Kids(s, p)| ==> NodeDone(s, Kids(s, p)[j])
  {
    assert AggFixed(s, p) && SlotsOk(s, p);
    PlanKids(|s.proveTasks|);
  }

  lemma {:induction false} GetAggKeeps(s: StageState, now: nat)
    requires TasksOk(s)
    ensures TasksOk(GetAgg(s, now).0) && Base(GetAgg(s, now).0) == Base(s)
  {
    var p := FirstWhere(s.aggTasks, ReadyAgg());
    if p < |s.aggTasks| {
      UnblockedKidsDone(s, p);
      AggTouched(s, GetAgg(s, now).0, p);
    }
  }

  lemma {:induction false} AcceptedAggDone(s: StageState, m: AggTask, now: nat, p: nat)
    requires IdsOk(s) && Built(s) && AggMessageOk(s, m) && p == m.taskId - Base(s) && m.state == Success
    requires p == FirstWhere(s.aggTasks, RunningAgg(m.taskId))
    ensures BecameDone(s, AcceptAgg(s, m, now), |s.proveTasks| + p)
  {
  }

  lemma {:induction false} AggDoneKeeps(s: StageState, m: AggTask, now: nat, p: nat)
    requires TasksOk(s) && AggMessageOk(s, m) && p == m.taskId - Base(s) && m.state == Success
    requires p == FirstWhere(s.aggTasks, RunningAgg(m.taskId))
    ensures var s1 := AcceptAgg(s, m, now);
      var s2 := s1.(aggTasks := ClearAgg(s1.aggTasks, m.taskId)); TasksOk(s2) && Base(s2) == Base(s)
  {
    var s1, x := AcceptAgg(s, m, now), |s.proveTasks| + p;
    AcceptedAggDone(s, m, now, p);
    assert IdOf(s, x) == m.taskId;
    DoneStep(s, s1, s1.(aggTasks := ClearAgg(s1.aggTasks, m.taskId)), x);
  }

  lemma {:induction false} OnAggKeeps(s: StageState, m: AggTask, now: nat)
    requires TasksOk(s) && AggMessageOk(s, m)
    ensures TasksOk(OnAgg(s, m, now)) && Base(OnAgg(s, m, now)) == Base(s)
  {
    var p := m.taskId - Base(s);
    FirstWhereIs(s.aggTasks, RunningAgg(m.taskId), p);
    var s1, s2 := AcceptAgg(s, m, now), OnAgg(s, m, now);
    if m.state == Success {
      AggDoneKeeps(s, m, now, p);
      SnarkFileAside(s1.(aggTasks := s2.aggTasks), s2);
    } else if Accepted(m.state) {
      assert ProgressOk(s, p);
      AggTouched(s, s1, p);
    }
  }

  /** The invariant does not look at the other fields. */
  lemma {:induction false} SnarkFileAside(s: StageState, s1: StageState)
    requires TasksOk(s)
    requires s1.gen == s.gen && s1.proveTasks == s.proveTasks && s1.aggTasks == s.aggTasks
    requires s1.tasksGenDone == s.tasksGenDone && s1.nextId >= s.nextId
    ensures TasksOk(s1) && (s.aggTasks != [] ==> Base(s1) == Base(s))
  {
    ListsAside(s, s1);
    TreeAside(s, s1);
  }

  lemma ListsAside(s: StageState, s1: StageState)
    requires IdsOk(s) && ProvesOk(s)
    requires s1.proveTasks == s.proveTasks && s1.aggTasks == s.aggTasks
    requires s1.tasksGenDone == s.tasksGenDone && s1.nextId >= s.nextId
    ensures IdsOk(s1) && ProvesOk(s1)
  {
  }

  lemma {:induction false} TreeAside(s: StageState, s1: StageState)
    requires TreeOk(s) && s1.gen == s.gen && s1.tasksGenDone == s.tasksGenDone
    requires s1.proveTasks == s.proveTasks && s1.aggTasks == s.aggTasks
    ensures TreeOk(s1)
  {
    if Built(s) {
      forall p | 0 <= p < |s.aggTasks|
        ensures AggFixed(s1, p) && SlotsOk(s1, p) && ProgressOk(s1, p)
      {
        assert AggFixed(s, p) && SlotsOk(s, p) && ProgressOk(s, p);
        TaskAside(s, s1, p);
      }
    }
  }

  lemma {:induction false} TaskAside(s: StageState, s1: StageState, p: nat)
    requires InTree(s, p) && AggFixed(s, p) && SlotsOk(s, p) && ProgressOk(s, p)
    requires s1.proveTasks == s.proveTasks && s1.aggTasks == s.aggTasks
    ensures AggFixed(s1, p) && SlotsOk(s1, p) && ProgressOk(s1, p)
  {
    assert Kids(s1, p) == Kids(s, p);
  }

  // What dispatch leaves alone

  lemma GenProvePhase(s: StageState, segmentsTxt: Option<nat>)
    ensures var s1 := GenProve(s, segmentsTxt); s1 == s.(proveTasks := s1.proveTasks, nextId := s1.nextId)
  {
  }

  lemma GenTasksPhase(s: StageState, listing: seq<DirEntry>)
    ensures var s1 := GenTasks(s, listing);
      s1 == s.(proveTasks := s1.proveTasks, aggTasks := s1.aggTasks, nextId := s1.nextId, tasksGenDone := true)
  {
    var s1 := GenProvePost(s, listing);
    assert s1 == s.(proveTasks := s1.proveTasks, nextId := s1.nextId);
  }

  lemma AdvancePhase(s: StageState)
    ensures var s1 := Advance(s); s1 == s.(step := s1.step, snarkTask := s1.snarkTask, nextId := s1.nextId)
    ensures var s1 := Advance(s); s1.step == s.step || s1.step == Snark || s1.step == End
  {
  }

  /** The stage just before DispatchProve decides whether to leave step Prove. */
  function Prepared(s: StageState, segmentsTxt: Option<nat>, listing: seq<DirEntry>): StageState {
    var s1 := GenProve(s, segmentsTxt);
    if s1.splitTask.state == Success && !s1.tasksGenDone && s1.gen.targetStep != Split
    then GenTasks(s1, listing) else s1
  }

  lemma DispatchPhase(s: StageState, segmentsTxt: Option<nat>, listing: seq<DirEntry>)
    requires s.step == Prove
    ensures var s1, s2 := Prepared(s, segmentsTxt, listing), Dispatch(s, segmentsTxt, listing);
      && s1 == s.(proveTasks := s1.proveTasks, aggTasks := s1.aggTasks, nextId := s1.nextId, tasksGenDone := s1.tasksGenDone)
      && (s.tasksGenDone ==> s1.tasksGenDone)
      && s2 == s1.(step := s2.step, snarkTask := s2.snarkTask, nextId := s2.nextId)
      && (s2.step == Prove || s2.step == Snark || s2.step == End)
  {
    var s1 := GenProve(s, segmentsTxt);
    GenProvePhase(s, segmentsTxt);
    GenTasksPhase(s1, listing);
    AdvancePhase(s1);
    AdvancePhase(GenTasks(s1, listing));
  }
}
