/** What every iteration of the event loop keeps, and hence holds in every run. */
module WorkerInvariant {
  import opened Receipts
  import opened DeferredFiles
  import opened Tasks
  import opened ProverReplies
  import opened StageSpec
  import opened StageInvariant
  import opened StageSteps
  import opened StageBuild
  import opened WorkerSpec
  import opened WorkerCalls

  // The work a request amounts to: how many segments its program splits into and how
  // many deferred inputs the splitter writes.
  datatype Job = Job(segments: nat, deferred: nat)

  function DeferredInputs(n: nat): (rs: seq<Receipt>)
    ensures |rs| == n
  {
    seq(n, i requires 0 <= i < n => DeferredInput(i))
  }

  function SegmentProofs(n: nat): (rs: seq<Receipt>)
    ensures |rs| == n
  {
    seq(n, i requires 0 <= i < n => SegmentProof(i))
  }

  /** All segments in order, then all deferred inputs in order. */
  function JobLeaves(job: Job): seq<Receipt> {
    SegmentProofs(job.segments) + DeferredInputs(job.deferred)
  }

  /** What stage_service lets through. */
  predicate RequestOk(gen: GenerateTask) {
    && (gen.fromStep == Init || gen.fromStep == Agg)
    && (gen.targetStep == Split || gen.targetStep == Agg || gen.targetStep == Snark)
  }

  /** A clock that does not run backwards, a splitter that reports the job's number of
      segments, and a directory holding exactly the job's deferred inputs.  (Only split
      tasks look at the number, and only the build at the listing.) */
  ghost predicate EventOk(job: Job, now: nat, e: Event) {
    && now <= e.splitAt <= e.proveAt <= e.aggAt <= e.snarkAt <= e.receiveAt
    && (e.delivery.Some? && e.delivery.value.reply.Answer? && e.delivery.value.reply.code.Ok? ==>
         e.delivery.value.reply.totalSegments == job.segments)
    && ListingFits(job, e.listing)
  }

  ghost predicate ListingFits(job: Job, listing: seq<DirEntry>) {
    && multiset(FilesIn(listing)) == multiset(Produced(DeferredInputs(job.deferred)))
    && job.deferred <= FIRST_NUMBER
  }

  // A run of the event loop: the state at the start and after each iteration.
  datatype History = History(job: Job, gen: GenerateTask, events: seq<Event>, states: seq<Worker>)

  ghost predicate Follows(h: History, k: nat) {
    k < |h.states| == |h.events| + 1 &&
    if k == 0 then RequestOk(h.gen) && h.states[0] == Start(h.gen)
    else
      && EventOk(h.job, h.states[k - 1].now, h.events[k - 1])
      && h.states[k] == Iterate(h.states[k - 1], h.events[k - 1])
  }

  ghost predicate IsRun(h: History) {
    |h.states| == |h.events| + 1 && forall k :: 0 <= k < |h.states| ==> Follows(h, k)
  }

  /** Every request can be started. */
  lemma {:induction false} RunStarts(job: Job, gen: GenerateTask)
    requires RequestOk(gen)
    ensures IsRun(History(job, gen, [], [Start(gen)]))
  {
  }

  /** Every run can go on with any event the environment may contribute. */
  lemma {:induction false} RunGoesOn(h: History, e: Event)
    requires IsRun(h) && EventOk(h.job, h.states[|h.events|].now, e)
    ensures IsRun(h.(events := h.events + [e], states := h.states + [Iterate(h.states[|h.events|], e)]))
  {
    var h1 := h.(events := h.events + [e], states := h.states + [Iterate(h.states[|h.events|], e)]);
    forall k | 0 <= k < |h1.states|
      ensures Follows(h1, k)
    {
      assert k < |h.states| ==> Follows(h, k);
    }
  }

  ghost predicate StepOk(s: StageState) {
    && RequestOk(s.gen)
    && (s.step == Prove || s.step == Snark || s.step == End)
    && (s.gen.fromStep == Agg ==>
         && s.step == Snark && s.splitTask == DEFAULT_SPLIT && s.proveTasks == [] && !s.tasksGenDone
         && s.snarkTask.aggReceipt == s.gen.inputReceipt && s.snarkTask.fromInput)
    && (s.gen.fromStep == Init ==> s.splitTask.state != Initial)
    && (s.tasksGenDone ==> s.splitTask.state == Success && s.gen.targetStep != Split)
    && (s.gen.targetStep == Split ==> s.proveTasks == [])
    && (s.step == Prove ==> s.gen.fromStep == Init && s.snarkTask == DEFAULT_SNARK)
    && (s.step == Snark ==> s.snarkTask.state != Initial)
    && (s.step == Snark && s.gen.fromStep == Init ==>
         && Built(s) && s.gen.targetStep == StageSpec.Snark && AllProved(s) && AllAggregated(s)
         && s.snarkTask.aggReceipt == FinalOutput(s.aggTasks, EMPTY) && !s.snarkTask.fromInput)
    && (s.step == End ==> EndOk(s))
  }

  ghost predicate EndOk(s: StageState) {
    && s.gen.fromStep == Init && s.snarkTask == DEFAULT_SNARK && s.splitTask.state == Success
    && (s.gen.targetStep != Split ==>
         && s.tasksGenDone && AllProved(s)
         && (s.gen.compositeProof || (s.gen.targetStep == Agg && AllAggregated(s))))
  }

  /** snark_path holds the finished root aggregation or the finished snark proof. */
  ghost predicate DeliveryOk(s: StageState) {
    && (s.gen.targetStep == Agg && s.aggTasks != [] && s.aggTasks[|s.aggTasks| - 1].state == Success ==>
         s.snarkFile == Some(s.aggTasks[|s.aggTasks| - 1].output))
    && (s.snarkTask.state == Success ==>
         s.snarkTask.output == SnarkProof(s.snarkTask.aggReceipt) && s.snarkFile == Some(s.snarkTask.output))
  }

  ghost predicate CoverOk(s: StageState, job: Job) {
    && (s.splitTask.state == Success ==> s.splitTask.totalSegments == job.segments)
    && (s.tasksGenDone ==> LeafReceipts(s.proveTasks) == JobLeaves(job))
  }

  ghost predicate Core(s: StageState, calls: map<CallId, Task>, nextCall: CallId, job: Job) {
    TasksOk(s) && CallsOk(s, calls, nextCall) && Rest(s, job)
  }

  ghost predicate Inv(w: Worker, job: Job) {
    Core(w.stage, w.calls, w.nextCall, job) && (w.stage.isError ==> w.finished)
  }

  ghost predicate Rest(s: StageState, job: Job) {
    StepOk(s) && DeliveryOk(s) && CoverOk(s, job)
  }

  // Start

  lemma {:induction false} StartInv(gen: GenerateTask, job: Job)
    requires RequestOk(gen)
    ensures Inv(Start(gen), job)
  {
  }

  // Handing out

  lemma {:induction false} StartedRest(s: StageState, s1: StageState, i: nat, job: Job)
    requires Rest(s, job) && s.step == Prove && ProveStarted(s, s1, i)
    ensures Rest(s1, job)
  {
    assert LeafReceipts(s1.proveTasks) == LeafReceipts(s.proveTasks);
  }

  lemma {:induction false} SpawnSplitInv(w: Worker, now: nat, job: Job)
    requires Inv(w, job)
    ensures Inv(SpawnSplit(w, now), job)
  {
    SpawnSplitCalls(w, now);
    if w.stage.step == Prove {
      SnarkFileAside(w.stage, GetSplit(w.stage, now).0);
    }
  }

  lemma {:induction false} SpawnProveInv(w: Worker, segments: set<nat>, now: nat, job: Job)
    requires Inv(w, job)
    ensures Inv(SpawnProve(w, segments, now), job)
  {
    SpawnProveCalls(w, segments, now);
    GetProveKeeps(w.stage, segments, now);
    var i := FirstWhere(w.stage.proveTasks, ReadyProve(segments));
    if w.stage.step == Prove && i < |w.stage.proveTasks| {
      StartedRest(w.stage, GetProve(w.stage, segments, now).0, i, job);
    }
  }

  lemma {:induction false} SpawnAggInv(w: Worker, now: nat, job: Job)
    requires Inv(w, job)
    ensures Inv(SpawnAgg(w, now), job)
  {
    SpawnAggCalls(w, now);
    GetAggKeeps(w.stage, now);
    if w.stage.step == Prove {
      GetAggRest(w.stage, now, job);
    }
  }

  lemma {:induction false} GetAggRest(s: StageState, now: nat, job: Job)
    requires Rest(s, job) && s.step == Prove
    ensures Rest(GetAgg(s, now).0, job)
  {
  }

  lemma {:induction false} SpawnSnarkInv(w: Worker, now: nat, job: Job)
    requires Inv(w, job)
    ensures Inv(SpawnSnark(w, now), job)
  {
    SpawnSnarkCalls(w, now);
    if w.stage.step == Snark {
      SnarkFileAside(w.stage, GetSnark(w.stage, now).0);
    }
  }

  // Receiving

  /** In step Prove, answers to prove and agg tasks disturb none of the rest. */
  lemma {:induction false} AnswerInProve(s: StageState, s1: StageState, id: TaskId, job: Job)
    requires Rest(s, job) && s.step == Prove && OthersKept(s, s1, id)
    ensures StepOk(s1) && CoverOk(s1, job)
  {
  }

  lemma {:induction false} AggCallInProve(s: StageState, t: AggTask)
    requires StepOk(s) && AggCallOk(s, t)
    ensures s.step == Prove
  {
    assert !AllAggregated(s);
  }

  lemma {:induction false} TakeProveRest(s: StageState, t: ProveTask, r: Reply, now: nat, job: Job)
    requires TasksOk(s) && Rest(s, job) && ProveCallOk(s, t)
    ensures Rest(OnProve(s, ProveReply(t, r), now), job)
  {
    var m := ProveReply(t, r);
    if s.step == Prove {
      OnProveOthers(s, m, now);
      ProveDelivery(s, OnProve(s, m, now), m.taskId);
      AnswerInProve(s, OnProve(s, m, now), m.taskId, job);
    } else {
      UnlistedIdWaitsNowhere(s, t.taskId);
      assert OnProve(s, m, now) == s;
    }
  }

  lemma {:induction false} ProveDelivery(s: StageState, s1: StageState, id: TaskId)
    requires IdsOk(s) && id < Base(s) && DeliveryOk(s) && OthersKept(s, s1, id) && s1.snarkFile == s.snarkFile
    ensures DeliveryOk(s1)
  {
    if s.aggTasks != [] {
      assert s.aggTasks[|s.aggTasks| - 1].taskId != id;
    }
  }

  lemma {:induction false} TakeAggRest(s: StageState, t: AggTask, r: Reply, now: nat, job: Job)
    requires TasksOk(s) && Rest(s, job) && AggCallOk(s, t)
    ensures Rest(OnAgg(s, AggReply(t, r), now), job)
  {
    var m := AggReply(t, r);
    OnAggOthers(s, m, now);
    AggCallInProve(s, t);
    AnswerInProve(s, OnAgg(s, m, now), m.taskId, job);
    AggTaken(s, t, r, now);
  }

  lemma {:induction false} AggTaken(s: StageState, t: AggTask, r: Reply, now: nat)
    requires TasksOk(s) && DeliveryOk(s) && AggCallOk(s, t) && s.snarkTask.state != Success
    ensures DeliveryOk(OnAgg(s, AggReply(t, r), now))
  {
    var m, p := AggReply(t, r), t.taskId - Base(s);
    AggReplyOk(s, t, r);
    OnAggOthers(s, m, now);
    AggAnswered(s, m, now, p);
    AggDelivery(s, OnAgg(s, m, now), m, p);
  }

  lemma {:induction false} AggDelivery(s: StageState, s1: StageState, m: AggTask, p: nat)
    requires TasksOk(s) && DeliveryOk(s) && AggMessageOk(s, m) && p == m.taskId - Base(s)
    requires OthersKept(s, s1, m.taskId) && s.snarkTask.state != Success
    requires var t := s1.aggTasks[p];
      && t.state == (if Accepted(m.state) then m.state else Processing)
      && (Decisive(m.state) ==> t.output == m.output)
    requires s1.snarkFile ==
      if m.state == Success && m.isFinal && s.gen.targetStep == Agg then Some(m.output) else s.snarkFile
    ensures DeliveryOk(s1)
  {
    assert AggFixed(s, p);
    var last := |s.aggTasks| - 1;
    if last != p {
      assert s.aggTasks[last].taskId != m.taskId;
    }
  }

  /** The answered task takes over the message's state and, when decisive, its output. */
  lemma {:induction false} AggAnswered(s: StageState, m: AggTask, now: nat, p: nat)
    requires TasksOk(s) && AggMessageOk(s, m) && p == m.taskId - Base(s)
    ensures |OnAgg(s, m, now).aggTasks| == |s.aggTasks|
    ensures var t := OnAgg(s, m, now).aggTasks[p];
      && t.state == (if Accepted(m.state) then m.state else Processing)
      && (Decisive(m.state) ==> t.output == m.output)
    ensures OnAgg(s, m, now).snarkFile ==
      if m.state == Success && m.isFinal && s.gen.targetStep == Agg then Some(m.output) else s.snarkFile
  {
    FirstWhereIs(s.aggTasks, RunningAgg(m.taskId), p);
    ClearAggKeeps(AcceptAgg(s, m, now).aggTasks, m.taskId);
  }

  lemma {:induction false} TakeSplitRest(s: StageState, t: SplitTask, r: Reply, now: nat, job: Job)
    requires Rest(s, job) && s.splitTask.state == Processing
    requires r.Answer? && r.code.Ok? ==> r.totalSegments == job.segments
    ensures Rest(OnSplit(s, SplitReply(t, r), now), job)
  {
  }

  lemma {:induction false} TakeSnarkRest(s: StageState, t: SnarkTask, r: Reply, now: nat, job: Job)
    requires TasksOk(s) && Rest(s, job)
    requires t.state == s.snarkTask.state == Processing && t.aggReceipt == s.snarkTask.aggReceipt
    ensures Rest(OnSnark(s, SnarkReply(t, r), now), job)
  {
    assert s.step == Snark;
  }

  lemma {:induction false} ReceiveRest(w: Worker, delivery: Option<Delivery>, now: nat, job: Job)
    requires Inv(w, job)
    requires delivery.Some? && delivery.value.reply.Answer? && delivery.value.reply.code.Ok? ==>
      delivery.value.reply.totalSegments == job.segments
    ensures Rest(Receive(w, delivery, now).stage, job)
  {
    if delivery.Some? && delivery.value.call in w.calls {
      var c, r := delivery.value.call, delivery.value.reply;
      assert CallOk(w.stage, w.calls[c]);
      match w.calls[c]
      case SplitCall(t) => TakeSplitRest(w.stage, t, r, now, job);
      case ProveCall(t) => TakeProveRest(w.stage, t, r, now, job);
      case AggCall(t) => TakeAggRest(w.stage, t, r, now, job);
      case SnarkCall(t) => TakeSnarkRest(w.stage, t, r, now, job);
    }
  }

  // Dispatching

  lemma {:induction false} GenProveCalls(s: StageState, segmentsTxt: Option<nat>, calls: map<CallId, Task>)
    requires TasksOk(s)
    ensures CallsSurvive(s, GenProve(s, segmentsTxt), calls)
  {
  }

  /** Every listed task after the build was listed before, or is newer than any call. */
  lemma {:induction false} GenTasksProves(s: StageState, listing: seq<DirEntry>, i: nat)
    requires TasksOk(s) && !s.tasksGenDone && ListingOk(listing)
    requires i < |GenProvePost(s, listing).proveTasks|
    ensures var t := GenProvePost(s, listing).proveTasks[i];
      t.taskId >= s.nextId || (i < |s.proveTasks| && t == s.proveTasks[i])
  {
    var fit, files := Fit(s), SortByNumber(FilesIn(listing));
    FitKeeps(s);
    var t := GenProvePost(s, listing).proveTasks[i];
    if i < |fit.proveTasks| {
      assert t == fit.proveTasks[i];
    } else {
      assert t == DeferredTasks(files, fit.nextId)[i - |fit.proveTasks|];
      assert t.taskId >= fit.nextId >= s.nextId;
    }
  }

  lemma {:induction false} GenTasksBase(s: StageState, listing: seq<DirEntry>)
    requires TasksOk(s) && !s.tasksGenDone && ListingOk(listing)
    ensures Base(GenTasks(s, listing)) >= s.nextId
  {
    GenProvePostKeeps(s, listing);
    TreeBase(GenProvePost(s, listing));
  }

  /** Telling the list about any number of finished tasks touches nothing but slots. */
  lemma {:induction false} ClearAllKeeps(aggs: seq<AggTask>, ids: seq<TaskId>)
    ensures |ClearAll(aggs, ids)| == |aggs|
    ensures forall p :: 0 <= p < |aggs| ==>
      ClearAll(aggs, ids)[p] == aggs[p].(childs := ClearAll(aggs, ids)[p].childs)
    decreases |ids|
  {
    if ids != [] {
      ClearAggKeeps(aggs, ids[0]);
      ClearAllKeeps(ClearAgg(aggs, ids[0]), ids[1..]);
    }
  }

  lemma {:induction false} TreeBase(s: StageState)
    requires s.aggTasks == [] && IdsOk(s) && ProvesOk(s.(tasksGenDone := true))
    ensures Base(TellDone(GenTree(s))) >= s.nextId
  {
    var s1 := GenTree(s);
    ClearAllKeeps(s1.aggTasks, SuccessfulIds(s1.proveTasks));
    if !s.gen.compositeProof {
      LeafOrder(s.proveTasks);
      GenAggTree(s);
    }
  }

  lemma {:induction false} GenTasksProveCall(s: StageState, listing: seq<DirEntry>, t: ProveTask)
    requires TasksOk(s) && !s.tasksGenDone && ListingOk(listing) && ProveCallOk(s, t)
    ensures ProveCallOk(GenTasks(s, listing), t)
  {
    var s1 := GenTasks(s, listing);
    GenTasksBase(s, listing);
    assert s1.proveTasks == GenProvePost(s, listing).proveTasks;
    forall i | 0 <= i < |s1.proveTasks| && s1.proveTasks[i].taskId == t.taskId
      ensures s1.proveTasks[i].state == Processing && s1.proveTasks[i].fileNo == t.fileNo
    {
      GenTasksProves(s, listing, i);
    }
  }

  /** Outstanding calls survive the build: agg calls cannot exist yet, and a prove call's
      task is either dropped or kept as it is. */
  lemma {:induction false} GenTasksCalls(s: StageState, listing: seq<DirEntry>, calls: map<CallId, Task>)
    requires TasksOk(s) && !s.tasksGenDone && ListingOk(listing) && s.splitTask.state == Success
    ensures CallsSurvive(s, GenTasks(s, listing), calls)
  {
    forall c | c in calls && CallOk(s, calls[c])
      ensures CallOk(GenTasks(s, listing), calls[c])
    {
      if calls[c].ProveCall? {
        GenTasksProveCall(s, listing, calls[c].prove);
      }
    }
  }

  /** The prove list after the build yields exactly the job's leaves, in order. */
  lemma {:induction false} GenTasksCover(s: StageState, listing: seq<DirEntry>, job: Job)
    requires TasksOk(s) && !s.tasksGenDone && s.splitTask.totalSegments == job.segments
    requires ListingFits(job, listing)
    ensures LeafReceipts(GenTasks(s, listing).proveTasks) == JobLeaves(job)
  {
    var inputs, fit := DeferredInputs(job.deferred), Fit(s);
    ListingOrderIrrelevant(listing, inputs);
    FitKeeps(s);
    SegmentLeaves(fit);
    DeferredLeaves(inputs, fit.nextId);
    LeafReceiptsConcat(fit.proveTasks, DeferredTasks(Produced(inputs), fit.nextId));
  }

  lemma SegmentLeaves(s: StageState)
    requires ProvesOk(s) && !s.tasksGenDone
    ensures LeafReceipts(s.proveTasks) == SegmentProofs(|s.proveTasks|)
  {
    forall i | 0 <= i < |s.proveTasks|
      ensures LeafReceipt(s.proveTasks[i]) == SegmentProof(i)
    {
      assert ProveOk(s.proveTasks[i], i);
    }
  }

  lemma DeferredLeaves(inputs: seq<Receipt>, id: TaskId)
    ensures LeafReceipts(DeferredTasks(Produced(inputs), id)) == inputs
  {
  }

  lemma LeafReceiptsConcat(xs: seq<ProveTask>, ys: seq<ProveTask>)
    ensures LeafReceipts(xs + ys) == LeafReceipts(xs) + LeafReceipts(ys)
  {
  }

  lemma {:induction false} ProducedListingOk(listing: seq<DirEntry>, job: Job)
    requires ListingFits(job, listing)
    ensures ListingOk(listing)
  {
    forall f | f in FilesIn(listing)
      ensures IsLeaf(f.content)
    {
      assert f in multiset(FilesIn(listing));
      assert f in Produced(DeferredInputs(job.deferred));
    }
  }

  lemma {:induction false} LastIsFinal(s: StageState)
    requires TasksOk(s) && Built(s)
    ensures FinalOutput(s.aggTasks, EMPTY)
      == if s.aggTasks == [] then EMPTY else s.aggTasks[|s.aggTasks| - 1].output
    ensures s.aggTasks != [] ==> s.aggTasks[|s.aggTasks| - 1].isFinal
  {
    if s.aggTasks != [] {
      assert AggFixed(s, |s.aggTasks| - 1);
    }
  }

  lemma {:induction false} AdvanceTasks(s: StageState)
    requires TasksOk(s)
    ensures TasksOk(Advance(s)) && (s.aggTasks != [] ==> Base(Advance(s)) == Base(s))
  {
    AdvancePhase(s);
    AdvanceIds(s);
    SnarkFileAside(s, Advance(s));
  }

  lemma AdvanceIds(s: StageState)
    ensures Advance(s).nextId >= s.nextId
  {
  }

  /** Advancing touches neither the split task nor any listed task. */
  lemma {:induction false} AdvanceCalls(s: StageState, calls: map<CallId, Task>, nextCall: CallId)
    requires CallsOk(s, calls, nextCall) && s.snarkTask.state == Initial
    ensures CallsOk(Advance(s), calls, nextCall)
  {
    var s1 := Advance(s);
    AdvancePhase(s);
    AdvanceIds(s);
    forall c | c in calls
      ensures CallOk(s1, calls[c])
    {
      assert CallOk(s, calls[c]);
      if calls[c].AggCall? {
        AggCallKept(s, s1, calls[c].agg);
      }
    }
  }

  lemma {:induction false} AdvanceRest(s: StageState, job: Job)
    requires TasksOk(s) && Rest(s, job) && s.step == Prove
    ensures Rest(Advance(s), job)
  {
    if Built(s) {
      LastIsFinal(s);
    }
  }

  lemma {:induction false} AdvanceInv(s: StageState, calls: map<CallId, Task>, nextCall: CallId, job: Job)
    requires Core(s, calls, nextCall, job) && s.step == Prove
    ensures Core(Advance(s), calls, nextCall, job)
  {
    AdvanceTasks(s);
    AdvanceCalls(s, calls, nextCall);
    AdvanceRest(s, job);
  }

  lemma {:induction false} GenProveReady(
    s: StageState, segmentsTxt: Option<nat>, calls: map<CallId, Task>, nextCall: CallId, job: Job)
    requires Core(s, calls, nextCall, job) && s.step == Prove
    ensures var s1 := GenProve(s, segmentsTxt); Core(s1, calls, nextCall, job) && s1.step == Prove
  {
    GenProveKeeps(s, segmentsTxt);
    GenProveCalls(s, segmentsTxt, calls);
  }

  lemma {:induction false} GenTasksRest(s: StageState, listing: seq<DirEntry>, job: Job)
    requires TasksOk(s) && Rest(s, job) && s.step == Prove
    requires !s.tasksGenDone && s.splitTask.state == Success && s.gen.targetStep != Split
    requires ListingFits(job, listing)
    ensures Rest(GenTasks(s, listing), job)
  {
    ProducedListingOk(listing, job);
    GenTasksPhase(s, listing);
    GenTasksCover(s, listing, job);
    GenTasksFresh(s, listing);
  }

  lemma {:induction false} GenTasksReady(
    s: StageState, listing: seq<DirEntry>, calls: map<CallId, Task>, nextCall: CallId, job: Job)
    requires Core(s, calls, nextCall, job) && s.step == Prove
    requires !s.tasksGenDone && s.splitTask.state == Success && s.gen.targetStep != Split
    requires ListingFits(job, listing)
    ensures var s1 := GenTasks(s, listing); Core(s1, calls, nextCall, job) && s1.step == Prove
  {
    ProducedListingOk(listing, job);
    GenTasksPhase(s, listing);
    GenTasksKeeps(s, listing);
    GenTasksCalls(s, listing, calls);
    GenTasksRest(s, listing, job);
  }

  /** Right after the build no aggregation is finished. */
  lemma {:induction false} GenTasksFresh(s: StageState, listing: seq<DirEntry>)
    requires TasksOk(s) && !s.tasksGenDone && ListingOk(listing)
    ensures forall p :: 0 <= p < |GenTasks(s, listing).aggTasks| ==> GenTasks(s, listing).aggTasks[p].state == Unprocessed
  {
    GenProvePostKeeps(s, listing);
    var s1 := GenProvePost(s, listing);
    var s2 := GenTree(s1);
    if s.gen.compositeProof {
      ClearAllNothing(SuccessfulIds(s2.proveTasks));
    } else {
      GenAggBuilds(s1);
      JustBuiltFresh(s2);
      ClearAllEmpties(s2.aggTasks, SuccessfulIds(s2.proveTasks));
      EmptiedFresh(s2.aggTasks, TellDone(s2).aggTasks, SuccessfulIds(s2.proveTasks));
    }
  }

  lemma {:induction false} DispatchProveCore(
    s: StageState, segmentsTxt: Option<nat>, listing: seq<DirEntry>, calls: map<CallId, Task>, nextCall: CallId, job: Job)
    requires Core(s, calls, nextCall, job) && s.step == Prove && ListingFits(job, listing)
    ensures Core(DispatchProve(s, segmentsTxt, listing), calls, nextCall, job)
  {
    var s1 := GenProve(s, segmentsTxt);
    GenProveReady(s, segmentsTxt, calls, nextCall, job);
    if s1.splitTask.state == Success && !s1.tasksGenDone {
      if s1.gen.targetStep == Split {
        TargetSplitEnds(s1, calls, nextCall, job);
      } else {
        GenTasksReady(s1, listing, calls, nextCall, job);
        AdvanceInv(GenTasks(s1, listing), calls, nextCall, job);
      }
    } else {
      AdvanceInv(s1, calls, nextCall, job);
    }
  }

  lemma {:induction false} TargetSplitEnds(s: StageState, calls: map<CallId, Task>, nextCall: CallId, job: Job)
    requires Core(s, calls, nextCall, job) && s.step == Prove && s.splitTask.state == Success && s.gen.targetStep == Split
    ensures Core(s.(step := End), calls, nextCall, job)
  {
    SnarkFileAside(s, s.(step := End));
  }

  /** The assertions on dispatch's path hold whenever the loop dispatches. */
  lemma {:induction false} FinishInv(w: Worker, e: Event, job: Job)
    requires Core(w.stage, w.calls, w.nextCall, job) && ListingFits(job, e.listing)
    ensures Inv(Finish(w, e), job)
    ensures !IsSuccess(w.stage) ==> DispatchSafe(w.stage)
  {
    if !IsSuccess(w.stage) && !w.stage.isError && w.stage.step == Prove {
      DispatchProveCore(w.stage, e.segmentsTxt, e.listing, w.calls, w.nextCall, job);
      DispatchNoError(w.stage, e.segmentsTxt, e.listing);
    }
  }

  lemma {:induction false} DispatchNoError(s: StageState, segmentsTxt: Option<nat>, listing: seq<DirEntry>)
    requires s.step == Prove && !s.isError
    ensures !Dispatch(s, segmentsTxt, listing).isError
  {
    DispatchPhase(s, segmentsTxt, listing);
  }

  lemma {:induction false} SpawnInv(w: Worker, e: Event, job: Job)
    requires Inv(w, job)
    ensures Inv(Spawn(w, e), job)
  {
    var w1 := SpawnSplit(w, e.splitAt);
    var w2 := SpawnProve(w1, e.segments, e.proveAt);
    var w3 := SpawnAgg(w2, e.aggAt);
    SpawnSplitInv(w, e.splitAt, job);
    SpawnProveInv(w1, e.segments, e.proveAt, job);
    SpawnAggInv(w2, e.aggAt, job);
    SpawnSnarkInv(w3, e.snarkAt, job);
  }

  lemma {:induction false} ReceiveCore(w: Worker, e: Event, job: Job)
    requires Inv(w, job) && EventOk(job, e.splitAt, e)
    ensures var w1 := Receive(w, e.delivery, e.receiveAt); Core(w1.stage, w1.calls, w1.nextCall, job)
  {
    ReceiveTasks(w, e.delivery, e.receiveAt);
    ReceiveCalls(w, e.delivery, e.receiveAt);
    ReceiveRest(w, e.delivery, e.receiveAt, job);
  }

  lemma {:induction false} IterateInv(w: Worker, e: Event, job: Job)
    requires Inv(w, job) && EventOk(job, w.now, e)
    ensures Inv(Iterate(w, e), job)
  {
    if !w.finished {
      SpawnInv(w, e, job);
      ReceiveCore(Spawn(w, e), e, job);
      FinishInv(Receive(Spawn(w, e), e.delivery, e.receiveAt), e, job);
    }
  }

  /** The invariant holds all along every run. */
  lemma {:induction false} RunInv(h: History, k: nat)
    requires IsRun(h) && k < |h.states|
    ensures Inv(h.states[k], h.job)
  {
    assert Follows(h, k);
    if k == 0 {
      StartInv(h.gen, h.job);
    } else {
      RunInv(h, k - 1);
      IterateInv(h.states[k - 1], h.events[k - 1], h.job);
    }
  }
}
