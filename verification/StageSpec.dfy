/** What each operation of a stage does to its state, on values (stage/stage.rs, v2). */
module StageSpec {
  import opened Receipts
  import opened AggPlan
  import opened DeferredFiles
  import opened Tasks

  datatype Step = Init | Split | Prove | Agg | Snark | End

  // The parts of a proof request that steer the stage; inputReceipt is the first
  // receipt of receipt_inputs_path.
  datatype GenerateTask = GenerateTask(
    fromStep: Step, targetStep: Step, compositeProof: bool, maxProverNum: nat, inputReceipt: Receipt)

  // nextId is the next fresh UUID; snarkFile is the content of snark_path.
  datatype StageState = StageState(
    gen: GenerateTask, splitTask: SplitTask, proveTasks: seq<ProveTask>, aggTasks: seq<AggTask>,
    snarkTask: SnarkTask, isError: bool, step: Step, tasksGenDone: bool,
    nextId: TaskId, snarkFile: Option<Receipt>)

  const PREALLOCATED := 64
  const MAX_FAILURES := 3
  const FIRST_LAYER_BATCH_SIZE := 1
  const BATCH_SIZE := 2

  function NewStage(gen: GenerateTask): StageState {
    StageState(gen, DEFAULT_SPLIT, [], [], DEFAULT_SNARK, false, gen.fromStep, false, 1, None)
  }

  predicate IsSuccess(s: StageState) {
    s.step == End || s.snarkTask.state == Success
  }

  // Conditions the list searches use.

  function ReadyProve(segments: set<nat>): ProveTask -> bool {
    (t: ProveTask) => Ready(t.state) && !t.isDeferred && t.fileNo in segments
  }

  function RunningProve(id: TaskId): ProveTask -> bool {
    (t: ProveTask) => t.taskId == id && t.state == Processing
  }

  function NamedProve(id: TaskId): ProveTask -> bool {
    (t: ProveTask) => t.taskId == id
  }

  function ProveIn(state: TaskState): ProveTask -> bool {
    (t: ProveTask) => t.state == state
  }

  function ProveNotIn(state: TaskState): ProveTask -> bool {
    (t: ProveTask) => t.state != state
  }

  function ReadyAgg(): AggTask -> bool {
    (t: AggTask) => Unblocked(t) && Ready(t.state)
  }

  function RunningAgg(id: TaskId): AggTask -> bool {
    (t: AggTask) => t.taskId == id && t.state == Processing
  }

  function NamedAgg(id: TaskId): AggTask -> bool {
    (t: AggTask) => t.taskId == id
  }

  function WaitingAgg(id: TaskId): AggTask -> bool {
    (t: AggTask) => WaitsFor(t, id)
  }

  predicate AllProved(s: StageState) {
    forall i :: 0 <= i < |s.proveTasks| ==> s.proveTasks[i].state == Success
  }

  predicate AllAggregated(s: StageState) {
    forall i :: 0 <= i < |s.aggTasks| ==> s.aggTasks[i].state == Success
  }

  // Split

  function GenSplit(s: StageState): StageState {
    s.(splitTask := s.splitTask.(taskId := s.nextId, state := Unprocessed), nextId := s.nextId + 1)
  }

  function Started(t: Trace, now: nat): Trace {
    t.(startTs := now)
  }

  function GetSplit(s: StageState, now: nat): (StageState, Option<SplitTask>) {
    if Ready(s.splitTask.state) then
      var t := s.splitTask.(state := Processing, trace := Started(s.splitTask.trace, now));
      (s.(splitTask := t), Some(t))
    else (s, None)
  }

  predicate Decisive(state: TaskState) {
    state == Failed || state == Success
  }

  predicate Accepted(state: TaskState) {
    Decisive(state) || state == Unprocessed
  }

  /** The message as the worker saves it: stamped when it was decisive. */
  function Stamped(t: Trace, state: TaskState, now: nat): Trace {
    if Decisive(state) then t.(finishTs := now) else t
  }

  function OnSplit(s: StageState, m: SplitTask, now: nat): StageState {
    var t := s.splitTask.(totalSteps := m.totalSteps, totalSegments := m.totalSegments);
    if !Accepted(m.state) then s.(splitTask := t)
    else s.(
      splitTask := t.(
        state := m.state,
        trace := Stamped(t.trace, m.state, now),
        output := if Decisive(m.state) then m.output else t.output),
      isError := s.isError || m.state == Failed)
  }

  // Prove

  function TaskWithNo(fileNo: nat, id: TaskId): ProveTask {
    ProveTask(id, Unprocessed, fileNo, false, EMPTY, NO_TRACE, 0)
  }

  function NewTasks(from: nat, to: nat, id: TaskId): (ts: seq<ProveTask>)
    ensures |ts| == if from <= to then to - from else 0
    ensures forall k :: 0 <= k < |ts| ==> ts[k] == TaskWithNo(from + k, id + k)
  {
    if from >= to then []
    else seq(to - from, k requires 0 <= k < to - from => TaskWithNo(from + k, id + k))
  }

  function ExtendTo(s: StageState, n: nat): StageState {
    var new' := NewTasks(|s.proveTasks|, n, s.nextId);
    s.(proveTasks := s.proveTasks + new', nextId := s.nextId + |new'|)
  }

  function GenProve(s: StageState, segmentsTxt: Option<nat>): StageState {
    if s.gen.targetStep == Split || s.tasksGenDone then s
    else
      var s1 := if s.proveTasks == [] then ExtendTo(s, PREALLOCATED) else s;
      if segmentsTxt.Some? then ExtendTo(s1, segmentsTxt.value) else s1
  }

  function DeferredTask(f: DeferredFile, id: TaskId): ProveTask {
    ProveTask(id, Success, f.number, true, f.content, NO_TRACE, 0)
  }

  function DeferredTasks(files: seq<DeferredFile>, id: TaskId): (ts: seq<ProveTask>)
    ensures |ts| == |files|
  {
    seq(|files|, k requires 0 <= k < |files| => DeferredTask(files[k], id + k))
  }

  function GenProvePost(s: StageState, listing: seq<DirEntry>): StageState {
    var total := s.splitTask.totalSegments;
    var s1 := if |s.proveTasks| > total then s.(proveTasks := s.proveTasks[..total]) else ExtendTo(s, total);
    var files := SortByNumber(FilesIn(listing));
    s1.(proveTasks := s1.proveTasks + DeferredTasks(files, s1.nextId), nextId := s1.nextId + |files|)
  }

  function GetProve(s: StageState, segments: set<nat>, now: nat): (StageState, Option<ProveTask>) {
    var i := FirstWhere(s.proveTasks, ReadyProve(segments));
    if i == |s.proveTasks| then (s, None)
    else
      var t := s.proveTasks[i].(state := Processing, trace := Started(s.proveTasks[i].trace, now));
      (s.(proveTasks := s.proveTasks[i := t]), Some(t))
  }

  /** What an accepted answer makes of a prove task. */
  function Answered(t: ProveTask, m: ProveTask, now: nat): ProveTask {
    if m.state == Unprocessed then t.(state := Unprocessed)
    else t.(
      state := m.state,
      trace := t.trace.(finishTs := now, nodeInfo := m.trace.nodeInfo),
      output := m.output,
      failureCount := if m.state == Failed && t.failureCount < MAX_FAILURES then t.failureCount + 1
                      else t.failureCount)
  }

  function AcceptProve(s: StageState, m: ProveTask, now: nat): StageState {
    var i := FirstWhere(s.proveTasks, RunningProve(m.taskId));
    if i == |s.proveTasks| || !Accepted(m.state) then s
    else
      var t := s.proveTasks[i];
      s.(proveTasks := s.proveTasks[i := Answered(t, m, now)],
         isError := s.isError || (m.state == Failed && t.failureCount >= MAX_FAILURES))
  }

  function OnProve(s: StageState, m: ProveTask, now: nat): StageState {
    var s1 := AcceptProve(s, m, now);
    if m.state == Success then s1.(aggTasks := ClearAgg(s1.aggTasks, m.taskId)) else s1
  }

  // Aggregation

  /** Empties the first slot of the list that waits for id, if any. */
  function ClearAgg(aggs: seq<AggTask>, id: TaskId): seq<AggTask> {
    var i := FirstWhere(aggs, WaitingAgg(id));
    if i == |aggs| then aggs else aggs[i := Cleared(aggs[i], id)]
  }

  function ClearAll(aggs: seq<AggTask>, ids: seq<TaskId>): seq<AggTask>
    decreases |ids|
  {
    if ids == [] then aggs else ClearAll(ClearAgg(aggs, ids[0]), ids[1..])
  }

  function SuccessfulIds(ts: seq<ProveTask>): seq<TaskId> {
    if ts == [] then []
    else (if ts[0].state == Success then [ts[0].taskId] else []) + SuccessfulIds(ts[1..])
  }

  function WithDeferred(ts: seq<ProveTask>, deferred: bool): seq<ProveTask> {
    if ts == [] then []
    else (if ts[0].isDeferred == deferred then [ts[0]] else []) + WithDeferred(ts[1..], deferred)
  }

  /** The prove tasks in leaf order: normal ones, then deferred ones. */
  function LeafTasks(ts: seq<ProveTask>): seq<ProveTask> {
    WithDeferred(ts, false) + WithDeferred(ts, true)
  }

  /** The identifier of tree node x (see AggPlan) when agg tasks are numbered from base. */
  function NodeId(leaves: seq<ProveTask>, base: TaskId, x: nat): TaskId {
    if x < |leaves| then leaves[x].taskId else base + x - |leaves|
  }

  /** The aggregation task at list position p of the tree over the given prove tasks. */
  function AggTaskAt(leaves: seq<ProveTask>, base: TaskId, p: nat): AggTask
    requires p < |Plan(|leaves|)|
  {
    var kids, isLeaf := Plan(|leaves|)[p], p < |leaves|;
    var isDeferred := isLeaf && leaves[p].isDeferred;
    AggTask(
      base + p, Unprocessed,
      seq(|kids|, j requires 0 <= j < |kids| =>
        AggregateInput(EMPTY, NodeId(leaves, base, kids[j]), !isLeaf)),
      isLeaf && |leaves| == 1 && !isDeferred, p == 0 && isLeaf && !isDeferred, isLeaf, false, p,
      isDeferred, NO_TRACE, EMPTY,
      if isDeferred then []
      else seq(|kids|, j requires 0 <= j < |kids| => Some(NodeId(leaves, base, kids[j]))))
  }

  /** The first k tasks of the tree. */
  function TreePrefix(leaves: seq<ProveTask>, base: TaskId, k: nat): (ts: seq<AggTask>)
    requires k <= |Plan(|leaves|)|
    ensures |ts| == k
    ensures forall p :: 0 <= p < k ==> ts[p] == AggTaskAt(leaves, base, p)
  {
    seq(k, p requires 0 <= p < k => AggTaskAt(leaves, base, p))
  }

  /** The whole tree over the given prove tasks. */
  function TreeTasks(ts: seq<ProveTask>, id: TaskId): seq<AggTask> {
    var leaves := LeafTasks(ts);
    TreePrefix(leaves, id, |Plan(|leaves|)|)
  }

  function MarkFinal(aggs: seq<AggTask>): seq<AggTask> {
    if aggs == [] then [] else aggs[|aggs| - 1 := aggs[|aggs| - 1].(isFinal := true)]
  }

  function GenAgg(s: StageState): StageState {
    var tree := TreeTasks(s.proveTasks, s.nextId);
    s.(aggTasks := MarkFinal(s.aggTasks + tree), nextId := s.nextId + |tree|)
  }

  predicate InputFound(s: StageState, input: AggregateInput) {
    if input.isAgg then FirstWhere(s.aggTasks, NamedAgg(input.computedRequestId)) < |s.aggTasks|
    else FirstWhere(s.proveTasks, NamedProve(input.computedRequestId)) < |s.proveTasks|
  }

  /** The input with the output of the task it names; LookupsSucceed excludes the last case. */
  function FilledInput(s: StageState, input: AggregateInput): AggregateInput {
    if !InputFound(s, input) then input
    else input.(receiptInput :=
      if input.isAgg then s.aggTasks[FirstWhere(s.aggTasks, NamedAgg(input.computedRequestId))].output
      else s.proveTasks[FirstWhere(s.proveTasks, NamedProve(input.computedRequestId))].output)
  }

  function FilledInputs(s: StageState, inputs: seq<AggregateInput>): (filled: seq<AggregateInput>)
    ensures |filled| == |inputs|
  {
    seq(|inputs|, j requires 0 <= j < |inputs| => FilledInput(s, inputs[j]))
  }

  /** The two unwraps of get_agg_task: every input of the chosen task names a listed task. */
  predicate LookupsSucceed(s: StageState) {
    var i := FirstWhere(s.aggTasks, ReadyAgg());
    i < |s.aggTasks| ==>
      forall j :: 0 <= j < |s.aggTasks[i].inputs| ==> InputFound(s, s.aggTasks[i].inputs[j])
  }

  function GetAgg(s: StageState, now: nat): (StageState, Option<AggTask>) {
    var i := FirstWhere(s.aggTasks, ReadyAgg());
    if i == |s.aggTasks| then (s, None)
    else
      var t := s.aggTasks[i].(state := Processing, trace := Started(s.aggTasks[i].trace, now));
      (s.(aggTasks := s.aggTasks[i := t]), Some(t.(inputs := FilledInputs(s, t.inputs))))
  }

  function AcceptAgg(s: StageState, m: AggTask, now: nat): StageState {
    var i := FirstWhere(s.aggTasks, RunningAgg(m.taskId));
    if i == |s.aggTasks| || !Accepted(m.state) then s
    else
      var t := s.aggTasks[i];
      s.(aggTasks := s.aggTasks[i := t.(
           state := m.state,
           trace := Stamped(t.trace, m.state, now),
           output := if Decisive(m.state) then m.output else t.output)],
         isError := s.isError || m.state == Failed)
  }

  function OnAgg(s: StageState, m: AggTask, now: nat): StageState {
    var s1 := AcceptAgg(s, m, now);
    if m.state != Success then s1
    else s1.(
      aggTasks := ClearAgg(s1.aggTasks, m.taskId),
      snarkFile := if m.isFinal && s.gen.targetStep == Agg then Some(m.output) else s1.snarkFile)
  }

  // Snark

  /** gen_snark_task neither trips its assertion nor reaches its unreachable arm. */
  predicate GenSnarkSafe(s: StageState) {
    s.snarkTask.state == Initial && (s.gen.fromStep == Init || s.gen.fromStep == Agg)
  }

  /** The output of the last task marked final, or the given default. */
  function FinalOutput(aggs: seq<AggTask>, default: Receipt): Receipt {
    if aggs == [] then default
    else if aggs[|aggs| - 1].isFinal then aggs[|aggs| - 1].output
    else FinalOutput(aggs[..|aggs| - 1], default)
  }

  function GenSnark(s: StageState): StageState {
    var t := s.snarkTask.(taskId := s.nextId, state := Unprocessed);
    s.(nextId := s.nextId + 1,
       snarkTask :=
         if s.gen.fromStep == Init then t.(
           aggReceipt := FinalOutput(s.aggTasks, t.aggReceipt),
           fromInput := t.fromInput && forall i :: 0 <= i < |s.aggTasks| ==> !s.aggTasks[i].isFinal)
         else t.(aggReceipt := s.gen.inputReceipt, fromInput := true))
  }

  function GetSnark(s: StageState, now: nat): (StageState, Option<SnarkTask>) {
    if Ready(s.snarkTask.state) then
      var t := s.snarkTask.(state := Processing, trace := Started(s.snarkTask.trace, now));
      (s.(snarkTask := t), Some(t))
    else (s, None)
  }

  function OnSnark(s: StageState, m: SnarkTask, now: nat): StageState {
    var t, s1 := s.snarkTask, s.(snarkFile := Some(m.output));
    if !Accepted(m.state) then s1
    else s1.(
      snarkTask := t.(
        state := m.state,
        trace := Stamped(t.trace, m.state, now),
        output := if Decisive(m.state) then m.output else t.output),
      isError := s.isError || m.state == Failed)
  }

  // Dispatch

  /** The assertions on dispatch's path hold. */
  predicate DispatchSafe(s: StageState) {
    && (s.step == Init ==> s.splitTask.state == Initial)
    && (s.step == Agg ==> s.gen.fromStep == Agg)
    && (s.step == Agg || s.step == Prove ==> GenSnarkSafe(s))
  }

  function GenTree(s: StageState): StageState {
    (if s.gen.compositeProof then s else GenAgg(s)).(tasksGenDone := true)
  }

  /** Tells the tree which prove tasks are done already. */
  function TellDone(s: StageState): StageState {
    s.(aggTasks := ClearAll(s.aggTasks, SuccessfulIds(s.proveTasks)))
  }

  function GenTasks(s: StageState, listing: seq<DirEntry>): StageState {
    TellDone(GenTree(GenProvePost(s, listing)))
  }

  function Advance(s: StageState): StageState {
    if !s.tasksGenDone || !AllProved(s) then s
    else if s.gen.compositeProof then s.(step := End)
    else if !AllAggregated(s) then s
    else if s.gen.targetStep == Agg then s.(step := End)
    else GenSnark(s).(step := Snark)
  }

  function DispatchProve(s: StageState, segmentsTxt: Option<nat>, listing: seq<DirEntry>): StageState {
    var s1 := GenProve(s, segmentsTxt);
    if s1.splitTask.state == Success && !s1.tasksGenDone then
      if s1.gen.targetStep == Split then s1.(step := End) else Advance(GenTasks(s1, listing))
    else Advance(s1)
  }

  function Dispatch(s: StageState, segmentsTxt: Option<nat>, listing: seq<DirEntry>): StageState {
    match s.step
    case Init => GenSplit(s).(step := Prove)
    case Prove => DispatchProve(s, segmentsTxt, listing)
    case Agg => GenSnark(s).(step := Snark)
    case Snark => if s.snarkTask.state == Success then s.(step := End) else s
    case _ => s
  }
}
