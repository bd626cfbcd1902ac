/** With a directory that holds none but the job's segment files, a run from Init never gets a
    snark call refused, so that no work is lost and the loop never waits for nothing. */
module QuotaClean {
  import opened Tasks
  import opened DeferredFiles
  import opened ProverReplies
  import opened StageSpec
  import opened StageInvariant
  import opened StageBuild
  import opened StageSteps
  import opened WorkerSpec
  import opened WorkerCalls
  import opened WorkerInvariant
  import opened WorkerSafety
  import opened WorkerLiveness
  import opened WorkerProgress
  import opened WorkerBounds
  import opened QuotaSpec
  import opened QuotaInvariant
  import opened QuotaResults

  /** Only the job's segment files are ever found. */
  predicate CleanEvent(e: Event, job: Job) {
    forall x :: x in e.segments ==> x < job.segments
  }

  ghost predicate CleanAt(q: QuotaRun, k: nat) {
    k < |q.moves| && (q.moves[k].HandOut? ==> CleanEvent(q.moves[k].event, q.job))
  }

  ghost predicate CleanRun(q: QuotaRun) {
    forall k :: 0 <= k < |q.moves| ==> CleanAt(q, k)
  }

  // Segments stay on the list

  /** The task at position i, which proves one of the job's segments. */
  predicate SegmentAt(s: StageState, i: nat, job: Job) {
    i < |s.proveTasks| && i < job.segments && !s.proveTasks[i].isDeferred
  }

  /** It is still there in s1, and done only if it was done, or if it is named id. */
  ghost predicate KeptAt(s: StageState, s1: StageState, i: nat, job: Job, id: Option<TaskId>) {
    SegmentAt(s, i, job) ==>
      && SegmentAt(s1, i, job) && s1.proveTasks[i].taskId == s.proveTasks[i].taskId
      && (s1.proveTasks[i].state == Success ==>
           s.proveTasks[i].state == Success || Some(s.proveTasks[i].taskId) == id)
  }

  ghost predicate SegmentsKept(s: StageState, s1: StageState, job: Job, id: Option<TaskId>) {
    forall i :: KeptAt(s, s1, i, job, id)
  }

  lemma KeptTwice(s: StageState, s1: StageState, s2: StageState, job: Job, id: Option<TaskId>)
    requires SegmentsKept(s, s1, job, id) && SegmentsKept(s1, s2, job, id)
    ensures SegmentsKept(s, s2, job, id)
  {
    forall i
      ensures KeptAt(s, s2, i, job, id)
    {
      assert KeptAt(s, s1, i, job, id) && KeptAt(s1, s2, i, job, id);
    }
  }

  lemma SameListKept(s: StageState, s1: StageState, job: Job, id: Option<TaskId>)
    requires s1.proveTasks == s.proveTasks
    ensures SegmentsKept(s, s1, job, id)
  {
  }

  lemma {:induction false} SpawnSegments(w: Worker, e: Event, job: Job)
    ensures SegmentsKept(w.stage, Spawn(w, e).stage, job, None)
  {
    var w1 := SpawnSplit(w, e.splitAt);
    var w2 := SpawnProve(w1, e.segments, e.proveAt);
    var w3 := SpawnAgg(w2, e.aggAt);
    SplitLists(w, e.splitAt);
    AggLists(w2, e.aggAt);
    SnarkLists(w3, e.snarkAt);
    SameListKept(w.stage, w1.stage, job, None);
    ProveSegments(w1, e.segments, e.proveAt, job);
    KeptTwice(w.stage, w1.stage, w2.stage, job, None);
    SameListKept(w2.stage, Spawn(w, e).stage, job, None);
    KeptTwice(w.stage, w2.stage, Spawn(w, e).stage, job, None);
  }

  lemma SplitLists(w: Worker, now: nat)
    ensures SpawnSplit(w, now).stage.proveTasks == w.stage.proveTasks
  {
  }

  lemma ProveSegments(w: Worker, segments: set<nat>, now: nat, job: Job)
    ensures SegmentsKept(w.stage, SpawnProve(w, segments, now).stage, job, None)
    ensures SpawnProve(w, segments, now).stage.splitTask == w.stage.splitTask
  {
  }

  lemma AggLists(w: Worker, now: nat)
    ensures SpawnAgg(w, now).stage.proveTasks == w.stage.proveTasks
    ensures SpawnAgg(w, now).stage.splitTask == w.stage.splitTask
  {
  }

  lemma SnarkLists(w: Worker, now: nat)
    ensures SpawnSnark(w, now).stage.proveTasks == w.stage.proveTasks
    ensures SpawnSnark(w, now).stage.splitTask == w.stage.splitTask
  {
  }

  /** The task that an answer of this call could finish. */
  function Named(call: Task, r: Reply): Option<TaskId> {
    if call.ProveCall? && r.Answer? then Some(call.prove.taskId) else None
  }

  lemma {:induction false} AcceptSegments(s: StageState, m: ProveTask, now: nat, job: Job)
    ensures SegmentsKept(s, AcceptProve(s, m, now), job, if m.state == Success then Some(m.taskId) else None)
  {
  }

  lemma {:induction false} TakeSegments(w: Worker, call: Task, r: Reply, now: nat, job: Job)
    ensures SegmentsKept(w.stage, Take(w, call, r, now).stage, job, Named(call, r))
  {
    match call
    case ProveCall(t) =>
      AcceptSegments(w.stage, ProveReply(t, r), now, job);
      OnProveList(w.stage, ProveReply(t, r), now);
    case AggCall(t) => OnAggPhase(w.stage, AggReply(t, r), now);
    case _ =>
  }

  lemma OnProveList(s: StageState, m: ProveTask, now: nat)
    ensures OnProve(s, m, now).proveTasks == AcceptProve(s, m, now).proveTasks
  {
  }

  /** What a delivery could finish. */
  function NamedBy(w: Worker, delivery: Option<Delivery>): Option<TaskId> {
    if delivery.Some? && delivery.value.call in w.calls
    then Named(w.calls[delivery.value.call], delivery.value.reply) else None
  }

  lemma {:induction false} ReceiveSegments(w: Worker, delivery: Option<Delivery>, now: nat, job: Job)
    ensures SegmentsKept(w.stage, Receive(w, delivery, now).stage, job, NamedBy(w, delivery))
  {
    if delivery.Some? && delivery.value.call in w.calls {
      var c := delivery.value.call;
      TakeSegments(w.(calls := w.calls - {c}), w.calls[c], delivery.value.reply, now, job);
    }
  }

  lemma {:induction false} ExtendSegments(s: StageState, n: nat, job: Job)
    ensures SegmentsKept(s, ExtendTo(s, n), job, None)
  {
  }

  lemma {:induction false} GenProveSegments(s: StageState, segmentsTxt: Option<nat>, job: Job)
    ensures SegmentsKept(s, GenProve(s, segmentsTxt), job, None)
  {
    var s1 := if s.proveTasks == [] then ExtendTo(s, PREALLOCATED) else s;
    ExtendSegments(s, PREALLOCATED, job);
    SameListKept(s, s, job, None);
    if segmentsTxt.Some? {
      ExtendSegments(s1, segmentsTxt.value, job);
      KeptTwice(s, s1, ExtendTo(s1, segmentsTxt.value), job, None);
    }
  }

  lemma {:induction false} GenTasksSegments(s: StageState, listing: seq<DirEntry>, job: Job)
    requires TasksOk(s) && !s.tasksGenDone && s.splitTask.totalSegments == job.segments
    ensures SegmentsKept(s, GenTasks(s, listing), job, None)
  {
    var fit, s1 := Fit(s), GenTasks(s, listing);
    FitKeeps(s);
    GenTasksList(s, listing);
    forall i: nat
      ensures KeptAt(s, s1, i, job, None)
    {
      if SegmentAt(s, i, job) {
        assert s1.proveTasks[i] == fit.proveTasks[i] == s.proveTasks[i];
      }
    }
  }

  lemma {:induction false} DispatchSegments(s: StageState, segmentsTxt: Option<nat>, listing: seq<DirEntry>, job: Job)
    requires TasksOk(s) && CoverOk(s, job) && s.step == Prove
    ensures SegmentsKept(s, Dispatch(s, segmentsTxt, listing), job, None)
    ensures Dispatch(s, segmentsTxt, listing).splitTask == s.splitTask
  {
    var s1, s2 := GenProve(s, segmentsTxt), Prepared(s, segmentsTxt, listing);
    GenProveSegments(s, segmentsTxt, job);
    GenProvePhase(s, segmentsTxt);
    GenProveKeeps(s, segmentsTxt);
    DispatchPhase(s, segmentsTxt, listing);
    if s2 != s1 {
      GenTasksSegments(s1, listing, job);
      KeptTwice(s, s1, s2, job, None);
    }
    SameListKept(s2, Dispatch(s, segmentsTxt, listing), job, None);
    KeptTwice(s, s2, Dispatch(s, segmentsTxt, listing), job, None);
  }

  lemma {:induction false} FinishSegments(w: Worker, e: Event, job: Job)
    requires TasksOk(w.stage) && Rest(w.stage, job)
    ensures SegmentsKept(w.stage, Finish(w, e).stage, job, None)
    ensures Finish(w, e).stage.splitTask == w.stage.splitTask
  {
    SameListKept(w.stage, w.stage, job, None);
    if w.stage.step == Prove {
      DispatchSegments(w.stage, e.segmentsTxt, e.listing, job);
    }
  }

  lemma KeptMore(s: StageState, s1: StageState, job: Job, id: Option<TaskId>)
    requires SegmentsKept(s, s1, job, None)
    ensures SegmentsKept(s, s1, job, id)
  {
    forall i
      ensures KeptAt(s, s1, i, job, id)
    {
      assert KeptAt(s, s1, i, job, None);
    }
  }

  /** Over the second half of a turn. */
  lemma {:induction false} EndTurnSegments(q: QuotaRun, k: nat)
    requires EndsTurn(q, k)
    ensures SegmentsKept(
      q.states[k].worker.stage, q.states[k + 1].worker.stage, q.job, NamedBy(q.states[k].worker, q.moves[k].event.delivery))
    ensures q.states[k + 1].worker.stage.splitTask == Received(q.states[k], q.moves[k].event).stage.splitTask
  {
    var s, e := q.states[k], q.moves[k].event;
    var w, id := Received(s, e), NamedBy(s.worker, e.delivery);
    EndTurnIs(q, k);
    ReceivedOk(q, k);
    ReceiveSegments(s.worker, e.delivery, e.receiveAt, q.job);
    FinishSegments(w, e, q.job);
    KeptMore(w.stage, Finish(w, e).stage, q.job, id);
    KeptTwice(s.worker.stage, w.stage, Finish(w, e).stage, q.job, id);
  }

  // No call for a task that is not on the list

  ghost predicate HasPlace(s: StageState, id: TaskId, job: Job) {
    exists i: nat :: SegmentAt(s, i, job) && s.proveTasks[i].taskId == id
  }

  ghost predicate CallsListed(w: Worker, job: Job) {
    forall c :: c in w.calls && w.calls[c].ProveCall? ==> HasPlace(w.stage, w.calls[c].prove.taskId, job)
  }

  lemma PlaceKept(s: StageState, s1: StageState, id: TaskId, job: Job, other: Option<TaskId>)
    requires HasPlace(s, id, job) && SegmentsKept(s, s1, job, other)
    ensures HasPlace(s1, id, job)
  {
    var i: nat :| SegmentAt(s, i, job) && s.proveTasks[i].taskId == id;
    assert KeptAt(s, s1, i, job, other);
  }

  /** The one new prove call of a turn is for a segment of the job. */
  lemma {:induction false} NewProveCall(w: Worker, segments: set<nat>, now: nat, job: Job)
    requires ProvesOk(w.stage) && forall x :: x in segments ==> x < job.segments
    ensures var w1 := SpawnProve(w, segments, now);
      forall c :: c in w1.calls && w1.calls[c].ProveCall? ==>
        (c in w.calls && w1.calls[c] == w.calls[c]) || HasPlace(w1.stage, w1.calls[c].prove.taskId, job)
  {
    var i, w1 := FirstWhere(w.stage.proveTasks, ReadyProve(segments)), SpawnProve(w, segments, now);
    if i < |w.stage.proveTasks| && w1.calls != w.calls {
      assert ProveOk(w.stage.proveTasks[i], i);
      assert SegmentAt(w1.stage, i, job);
    }
  }

  ghost predicate NoNewProve(w: Worker, w1: Worker) {
    forall c :: c in w1.calls && w1.calls[c].ProveCall? ==> c in w.calls && w1.calls[c] == w.calls[c]
  }

  lemma SplitNoProve(w: Worker, now: nat)
    ensures NoNewProve(w, SpawnSplit(w, now))
  {
  }

  lemma AggNoProve(w: Worker, now: nat)
    ensures NoNewProve(w, SpawnAgg(w, now))
  {
  }

  lemma SnarkNoProve(w: Worker, now: nat)
    ensures NoNewProve(w, SpawnSnark(w, now))
  {
  }

  lemma {:induction false} SpawnListed(w: Worker, e: Event, job: Job)
    requires Inv(w, job) && CallsListed(w, job) && CleanEvent(e, job)
    ensures CallsListed(Spawn(w, e), job)
  {
    var w1 := SpawnSplit(w, e.splitAt);
    var w2 := SpawnProve(w1, e.segments, e.proveAt);
    var w3 := SpawnAgg(w2, e.aggAt);
    var w4 := Spawn(w, e);
    SpawnSplitInv(w, e.splitAt, job);
    SplitNoProve(w, e.splitAt);
    NewProveCall(w1, e.segments, e.proveAt, job);
    AggNoProve(w2, e.aggAt);
    AggLists(w2, e.aggAt);
    SnarkNoProve(w3, e.snarkAt);
    SnarkLists(w3, e.snarkAt);
    SpawnSegments(w, e, job);
    SameListKept(w2.stage, w4.stage, job, None);
    forall c | c in w4.calls && w4.calls[c].ProveCall?
      ensures HasPlace(w4.stage, w4.calls[c].prove.taskId, job)
    {
      var id := w4.calls[c].prove.taskId;
      if c in w.calls && w4.calls[c] == w.calls[c] {
        PlaceKept(w.stage, w4.stage, id, job, None);
      } else {
        PlaceKept(w2.stage, w4.stage, id, job, None);
      }
    }
  }

  // A quota filled by skips alone blocks the stage before step Snark

  /** Nothing will come of the call but its return to the queue. */
  predicate NoAnswer(p: Phase) {
    p.Waiting? || p.Looking? || p == Over(Refused) || p == Over(NoNode)
  }

  ghost predicate SplitBlocked(s: System) {
    && s.worker.stage.splitTask.state != Success
    && forall c :: c in s.worker.calls && s.worker.calls[c].SplitCall? ==> c in s.phases && NoAnswer(s.phases[c])
  }

  /** Call c is outstanding and about prove task id. */
  predicate IsCallFor(w: Worker, c: CallId, id: TaskId) {
    c in w.calls && w.calls[c].ProveCall? && w.calls[c].prove.taskId == id
  }

  ghost predicate ProveBlocked(s: System, i: nat, job: Job) {
    && SegmentAt(s.worker.stage, i, job) && s.worker.stage.proveTasks[i].state != Success
    && forall c :: IsCallFor(s.worker, c, s.worker.stage.proveTasks[i].taskId) ==> c in s.phases && NoAnswer(s.phases[c])
  }

  ghost predicate Blocked(s: System, job: Job) {
    SplitBlocked(s) || exists i :: ProveBlocked(s, i, job)
  }

  ghost predicate CleanOk(s: System, job: Job) {
    CallsListed(s.worker, job) && (s.skips >= Limit(s) ==> Blocked(s, job))
  }

  lemma {:induction false} AdmittedLeavesRoom(s: System, c: CallId)
    requires CountOk(s) && c in s.phases && s.phases[c].Counted?
    ensures s.skips < Limit(s)
  {
    assert c in Admitted(s.phases);
  }

  lemma {:induction false} NoneAdmitted(s: System)
    requires CountOk(s) && s.skips >= Limit(s)
    ensures forall c :: c in s.phases ==> !s.phases[c].Counted?
  {
    forall c | c in s.phases
      ensures !s.phases[c].Counted?
    {
      if s.phases[c].Counted? {
        AdmittedLeavesRoom(s, c);
      }
    }
  }

  /** Blocked calls stay without an answer as long as none is admitted. */
  lemma {:induction false} CallMoveBlocked(q: QuotaRun, k: nat)
    requires CallMoves(q, k) && q.states[k].skips >= Limit(q.states[k]) && Blocked(q.states[k], q.job)
    ensures Blocked(q.states[k + 1], q.job)
  {
    var s := q.states[k];
    assert MovesOn(q, k + 1);
    QuotaInv(q, k);
    NoneAdmitted(s);
    if !SplitBlocked(s) {
      var i :| ProveBlocked(s, i, q.job);
      assert ProveBlocked(q.states[k + 1], i, q.job);
    }
  }

  lemma {:induction false} OneProveCall(s: StageState, calls: map<CallId, Task>, nextCall: CallId, c: CallId, d: CallId)
    requires CallsOk(s, calls, nextCall) && c in calls && d in calls && calls[c].ProveCall? && calls[d].ProveCall?
    requires calls[c].prove.taskId == calls[d].prove.taskId
    ensures c == d
  {
    assert c != d ==> !SameTarget(calls[c], calls[d]);
  }

  /** A call's task, if it is a segment of the list, is in progress. */
  lemma {:induction false} CalledInProgress(w: Worker, job: Job, c: CallId, i: nat)
    requires Inv(w, job) && c in w.calls && w.calls[c].ProveCall?
    requires SegmentAt(w.stage, i, job) && w.stage.proveTasks[i].taskId == w.calls[c].prove.taskId
    ensures w.stage.proveTasks[i].state == Processing
  {
    assert CallOk(w.stage, w.calls[c]);
  }

  /** The task whose skip fills the quota is blocked. */
  lemma {:induction false} SkipBlocks(q: QuotaRun, k: nat)
    requires CallMoves(q, k) && q.moves[k].SkipNode? && CallsListed(q.states[k].worker, q.job)
    ensures Blocked(q.states[k + 1], q.job)
  {
    var w, c, job := q.states[k].worker, q.moves[k].c, q.job;
    assert MovesOn(q, k + 1);
    QuotaInv(q, k);
    var id := w.calls[c].prove.taskId;
    assert HasPlace(w.stage, id, job);
    var i: nat :| SegmentAt(w.stage, i, job) && w.stage.proveTasks[i].taskId == id;
    CalledInProgress(w, job, c, i);
    forall d | IsCallFor(w, d, id)
      ensures d == c
    {
      OneProveCall(w.stage, w.calls, w.nextCall, c, d);
    }
    assert ProveBlocked(q.states[k + 1], i, job);
  }

  lemma {:induction false} CallMoveClean(q: QuotaRun, k: nat)
    requires CallMoves(q, k) && CleanOk(q.states[k], q.job)
    ensures CleanOk(q.states[k + 1], q.job)
  {
    assert MovesOn(q, k + 1);
    if q.moves[k].SkipNode? {
      SkipBlocks(q, k);
    } else if q.states[k].skips >= Limit(q.states[k]) {
      CallMoveBlocked(q, k);
    }
  }

  /** Call c has not begun, or stands where it stood in s. */
  ghost predicate NewOrSame(s: System, s1: System, c: CallId) {
    && c in s1.worker.calls && c in s1.phases
    && (s1.phases[c].Waiting? || (InPhase(s, c) && s.worker.calls[c] == s1.worker.calls[c] && s.phases[c] == s1.phases[c]))
  }

  ghost predicate AllNewOrSame(s: System, s1: System) {
    forall c :: c in s1.worker.calls ==> NewOrSame(s, s1, c)
  }

  lemma GrownNewOrSame(s: System, s1: System)
    requires CallsGrow(s.worker, s1.worker) && s.phases.Keys == s.worker.calls.Keys
    requires s1.phases == PhasesOf(s.phases, s1.worker.calls)
    ensures AllNewOrSame(s, s1)
  {
  }

  /** A segment's calls are blocked in s1 if they were in s, or are new and have not begun. */
  lemma {:induction false} StillProveBlocked(s: System, s1: System, i: nat, job: Job)
    requires ProveBlocked(s, i, job)
    requires SegmentAt(s1.worker.stage, i, job) && s1.worker.stage.proveTasks[i].state != Success
    requires s1.worker.stage.proveTasks[i].taskId == s.worker.stage.proveTasks[i].taskId
    requires AllNewOrSame(s, s1)
    ensures ProveBlocked(s1, i, job)
  {
  }

  lemma {:induction false} StillSplitBlocked(s: System, s1: System)
    requires SplitBlocked(s) && s1.worker.stage.splitTask.state != Success
    requires AllNewOrSame(s, s1)
    ensures SplitBlocked(s1)
  {
  }

  lemma SpawnSplitTask(w: Worker, e: Event)
    ensures Spawn(w, e).stage.splitTask.state == Success ==> w.stage.splitTask.state == Success
  {
    var w1 := SpawnSplit(w, e.splitAt);
    var w2 := SpawnProve(w1, e.segments, e.proveAt);
    ProveSegments(w1, e.segments, e.proveAt, Job(0, 0));
    AggLists(w2, e.aggAt);
    SnarkLists(SpawnAgg(w2, e.aggAt), e.snarkAt);
    SplitNotDone(w, e.splitAt);
  }

  lemma SplitNotDone(w: Worker, now: nat)
    ensures SpawnSplit(w, now).stage.splitTask.state == Success ==> w.stage.splitTask.state == Success
  {
  }

  lemma {:induction false} HandOutCalls(q: QuotaRun, k: nat)
    requires HandsOut(q, k)
    ensures AllNewOrSame(q.states[k], q.states[k + 1])
  {
    assert MovesOn(q, k + 1);
    QuotaInv(q, k);
    SpawnGrows(q.states[k].worker, q.moves[k].event, q.job);
    GrownNewOrSame(q.states[k], q.states[k + 1]);
  }

  lemma {:induction false} HandOutBlocked(q: QuotaRun, k: nat)
    requires HandsOut(q, k) && Blocked(q.states[k], q.job)
    ensures Blocked(q.states[k + 1], q.job)
  {
    var s, s1, e := q.states[k], q.states[k + 1], q.moves[k].event;
    assert MovesOn(q, k + 1);
    HandOutCalls(q, k);
    if SplitBlocked(s) {
      SpawnSplitTask(s.worker, e);
      StillSplitBlocked(s, s1);
    } else {
      var i :| ProveBlocked(s, i, q.job);
      SpawnSegments(s.worker, e, q.job);
      assert KeptAt(s.worker.stage, s1.worker.stage, i, q.job, None);
      StillProveBlocked(s, s1, i, q.job);
    }
  }

  lemma {:induction false} HandOutClean(q: QuotaRun, k: nat)
    requires HandsOut(q, k) && CleanOk(q.states[k], q.job) && CleanAt(q, k)
    ensures CleanOk(q.states[k + 1], q.job)
  {
    var s, e := q.states[k], q.moves[k].event;
    assert MovesOn(q, k + 1);
    QuotaInv(q, k);
    SpawnListed(s.worker, e, q.job);
    SpawnPhase(s.worker, e);
    if s.skips >= Limit(s) {
      HandOutBlocked(q, k);
    }
  }

  /** A call without an answer finishes no task. */
  lemma {:induction false} BlockedNotNamed(s: System, delivery: Option<Delivery>, i: nat, job: Job)
    requires ProveBlocked(s, i, job) && DeliveryReady(s, delivery)
    ensures NamedBy(s.worker, delivery) != Some(s.worker.stage.proveTasks[i].taskId)
  {
  }

  lemma {:induction false} SplitTaken(w: Worker, call: Task, r: Reply, now: nat)
    requires w.stage.splitTask.state != Success && (call.SplitCall? ==> !r.Answer?)
    ensures Take(w, call, r, now).stage.splitTask.state != Success
  {
    match call
    case ProveCall(t) => OnProvePhase(w.stage, ProveReply(t, r), now);
    case AggCall(t) => OnAggPhase(w.stage, AggReply(t, r), now);
    case _ =>
  }

  lemma {:induction false} SplitReceived(s: System, e: Event)
    requires SplitBlocked(s) && DeliveryReady(s, e.delivery)
    ensures Received(s, e).stage.splitTask.state != Success
  {
    if e.delivery.Some? && e.delivery.value.call in s.worker.calls {
      var c := e.delivery.value.call;
      SplitTaken(s.worker.(calls := s.worker.calls - {c}), s.worker.calls[c], e.delivery.value.reply, e.receiveAt);
    }
  }

  lemma LeftNewOrSame(s: System, s1: System, delivery: Option<Delivery>)
    requires CallsLeft(s, s1, delivery)
    ensures AllNewOrSame(s, s1)
  {
  }

  /** What is blocked stays so over the second half of a turn. */
  lemma {:induction false} EndTurnBlocked(q: QuotaRun, k: nat)
    requires EndsTurn(q, k) && Blocked(q.states[k], q.job)
    ensures Blocked(q.states[k + 1], q.job)
  {
    var s, s1, delivery := q.states[k], q.states[k + 1], q.moves[k].event.delivery;
    QuotaInv(q, k);
    EndTurnCalls(q, k);
    LeftNewOrSame(s, s1, delivery);
    EndTurnSegments(q, k);
    if SplitBlocked(s) {
      SplitReceived(s, q.moves[k].event);
      StillSplitBlocked(s, s1);
    } else {
      var i :| ProveBlocked(s, i, q.job);
      BlockedNotNamed(s, delivery, i, q.job);
      assert KeptAt(s.worker.stage, s1.worker.stage, i, q.job, NamedBy(s.worker, delivery));
      StillProveBlocked(s, s1, i, q.job);
    }
  }

  lemma {:induction false} EndTurnClean(q: QuotaRun, k: nat)
    requires EndsTurn(q, k) && CleanOk(q.states[k], q.job)
    ensures CleanOk(q.states[k + 1], q.job)
  {
    var s, s1 := q.states[k], q.states[k + 1];
    EndTurnCalls(q, k);
    EndTurnSegments(q, k);
    SameGen(q, k + 1);
    forall c | c in s1.worker.calls && s1.worker.calls[c].ProveCall?
      ensures HasPlace(s1.worker.stage, s1.worker.calls[c].prove.taskId, q.job)
    {
      PlaceKept(
        s.worker.stage, s1.worker.stage, s.worker.calls[c].prove.taskId, q.job, NamedBy(s.worker, q.moves[k].event.delivery));
    }
    assert MovesOn(q, k + 1);
    if s.skips >= Limit(s) {
      EndTurnBlocked(q, k);
    }
  }

  lemma {:induction false} StepClean(q: QuotaRun, k: nat)
    requires IsQuotaRun(q) && CleanRun(q) && k < |q.moves| && CleanOk(q.states[k], q.job)
    ensures CleanOk(q.states[k + 1], q.job)
  {
    assert CleanAt(q, k);
    match q.moves[k]
    case HandOut(_) => HandOutClean(q, k);
    case EndTurn(_) => EndTurnClean(q, k);
    case _ => CallMoveClean(q, k);
  }

  lemma {:induction false} BeginClean(gen: GenerateTask, job: Job)
    requires RequestOk(gen) && gen.fromStep == Init
    ensures CleanOk(Begin(gen), job)
  {
    assert SplitBlocked(Begin(gen));
  }

  lemma {:induction false} RunClean(q: QuotaRun, k: nat)
    requires IsQuotaRun(q) && CleanRun(q) && q.gen.fromStep == Init && k < |q.states|
    ensures CleanOk(q.states[k], q.job)
  {
    if k == 0 {
      assert MovesOn(q, 0);
      BeginClean(q.gen, q.job);
    } else {
      RunClean(q, k - 1);
      StepClean(q, k - 1);
    }
  }

  /** In step Snark nothing is blocked, and no prove call is left. */
  lemma {:induction false} SnarkUnblocked(s: System, job: Job)
    requires SystemOk(s, job) && CleanOk(s, job)
    requires s.worker.stage.step == StageSpec.Snark && s.worker.stage.gen.fromStep == Init
    ensures s.skips < Limit(s) && Strays(s) == {}
  {
    forall c | c in s.worker.calls
      ensures !s.worker.calls[c].ProveCall?
    {
      if s.worker.calls[c].ProveCall? {
        ProvedHasNoCall(s.worker, job, c);
      }
    }
    if Blocked(s, job) {
      BlockedInProve(s, job);
    }
  }

  lemma {:induction false} ProvedHasNoCall(w: Worker, job: Job, c: CallId)
    requires Inv(w, job) && CallsListed(w, job) && AllProved(w.stage) && c in w.calls
    ensures !w.calls[c].ProveCall?
  {
    if w.calls[c].ProveCall? {
      assert HasPlace(w.stage, w.calls[c].prove.taskId, job);
      var i: nat :| SegmentAt(w.stage, i, job) && w.stage.proveTasks[i].taskId == w.calls[c].prove.taskId;
      CalledInProgress(w, job, c, i);
    }
  }

  /** A blocked stage is in step Prove, whatever its target. */
  lemma {:induction false} BlockedInProve(s: System, job: Job)
    requires LoopOk(s, job) && s.worker.stage.gen.fromStep == Init && Blocked(s, job)
    ensures s.worker.stage.step == Prove && !IsSuccess(s.worker.stage)
  {
  }

  /** With none but the job's segment files, a run from Init is never doomed. */
  lemma {:induction false} CleanNeverDoomed(q: QuotaRun, k: nat)
    requires IsQuotaRun(q) && CleanRun(q) && q.gen.fromStep == Init && k < |q.states|
    ensures !Doomed(q.states[k])
  {
    BeginNotDoomed(q);
    if k > 0 {
      CleanNeverDoomed(q, k - 1);
      if q.states[k - 1].worker.finished {
        FinishedStays(q, k - 1);
      } else {
        InitHangsIffStraysFill(q, k - 1);
        CleanNeverFull(q, k - 1);
      }
    }
  }

  lemma {:induction false} CleanNeverFull(q: QuotaRun, k: nat)
    requires IsQuotaRun(q) && CleanRun(q) && q.gen.fromStep == Init && k < |q.moves|
    ensures !StraysFill(q.states[k], q.moves[k])
  {
    var s, m := q.states[k], q.moves[k];
    QuotaInv(q, k);
    QuotaGen(q, k);
    RunClean(q, k);
    if (m.FirstCheck? || m.SecondCheck?) && m.c in s.worker.calls && s.worker.calls[m.c].SnarkCall? {
      SnarkCallMeans(s, q.job, m.c);
      SnarkUnblocked(s, q.job);
    }
  }

  // Starvation

  /** The skips fill the quota, and the stage still needs the answer to a call. */
  ghost predicate Starved(s: System, job: Job) {
    s.skips >= Limit(s) && Blocked(s, job)
  }

  lemma SkipsStay(s: System, m: Move)
    ensures Next(s, m).skips >= s.skips
  {
  }

  lemma {:induction false} StepStarved(q: QuotaRun, k: nat)
    requires IsQuotaRun(q) && k < |q.moves| && Starved(q.states[k], q.job)
    ensures Starved(q.states[k + 1], q.job)
  {
    assert MovesOn(q, k + 1);
    SkipsStay(q.states[k], q.moves[k]);
    SameGen(q, k + 1);
    match q.moves[k]
    case HandOut(_) => HandOutBlocked(q, k);
    case EndTurn(_) => EndTurnBlocked(q, k);
    case _ => CallMoveBlocked(q, k);
  }

  /** A starved stage stays so and never succeeds, whatever files are found. */
  lemma {:induction false} StarvedForGood(q: QuotaRun, k: nat, m: nat)
    requires IsQuotaRun(q) && q.gen.fromStep == Init && k <= m < |q.states| && Starved(q.states[k], q.job)
    ensures Starved(q.states[m], q.job)
    ensures q.states[m].worker.stage.step == Prove && !IsSuccess(q.states[m].worker.stage)
    decreases m
  {
    if k < m {
      StarvedForGood(q, k, m - 1);
      StepStarved(q, m - 1);
    }
    QuotaInv(q, m);
    QuotaGen(q, m);
    BlockedInProve(q.states[m], q.job);
  }

  /** With none but the job's segment files, skips that fill the quota are the end of every
      request from Init: it never leaves step Prove again. */
  lemma {:induction false} FullSkipsStarve(q: QuotaRun, k: nat, m: nat)
    requires IsQuotaRun(q) && CleanRun(q) && q.gen.fromStep == Init && k <= m < |q.states|
    requires q.states[k].skips >= Limit(q.states[k])
    ensures q.states[m].worker.stage.step == Prove && !IsSuccess(q.states[m].worker.stage)
  {
    RunClean(q, k);
    StarvedForGood(q, k, m);
  }

  /** Without a quota the split is never admitted, and the stage starves from the start. */
  lemma {:induction false} NoQuotaStarves(q: QuotaRun, k: nat)
    requires IsQuotaRun(q) && q.gen.fromStep == Init && q.gen.maxProverNum == 0 && k < |q.states|
    ensures q.states[k].worker.stage.step == Prove && !IsSuccess(q.states[k].worker.stage)
  {
    assert MovesOn(q, 0);
    BeginClean(q.gen, q.job);
    QuotaGen(q, 0);
    StarvedForGood(q, 0, k);
  }

  // Nothing is lost

  /** The runs in which no snark call is ever refused. */
  ghost predicate HangFree(q: QuotaRun) {
    if q.gen.fromStep == Agg then q.gen.maxProverNum >= 1 else CleanRun(q)
  }

  lemma {:induction false} NeverDoomed(q: QuotaRun, k: nat)
    requires IsQuotaRun(q) && HangFree(q) && k < |q.states|
    ensures !Doomed(q.states[k])
  {
    QuotaGen(q, k);
    if q.gen.fromStep == Agg {
      if Doomed(q.states[k]) {
        AggDoomNeedsZero(q, k);
      }
    } else {
      CleanNeverDoomed(q, k);
    }
  }

  predicate Specified(reply: Reply) {
    !(reply.Answer? && reply.code.Unspecified?)
  }

  ghost predicate SpecifiedAt(q: QuotaRun, k: nat) {
    k < |q.moves| && (q.moves[k].Respond? ==> Specified(q.moves[k].reply))
  }

  /** The provers never answer with the unspecified code. */
  ghost predicate AllSpecified(q: QuotaRun) {
    forall k :: 0 <= k < |q.moves| ==> SpecifiedAt(q, k)
  }

  ghost predicate PhasesSpecified(s: System) {
    forall c :: c in s.phases && s.phases[c].Over? ==> Specified(s.phases[c].reply)
  }

  lemma {:induction false} StepSpecified(job: Job, s: System, m: Move)
    requires Enabled(job, s, m) && PhasesSpecified(s) && (m.Respond? ==> Specified(m.reply))
    ensures PhasesSpecified(Next(s, m))
  {
  }

  lemma {:induction false} RunSpecified(q: QuotaRun, k: nat)
    requires IsQuotaRun(q) && AllSpecified(q) && k < |q.states|
    ensures PhasesSpecified(q.states[k])
  {
    assert MovesOn(q, k);
    if k > 0 {
      RunSpecified(q, k - 1);
      assert SpecifiedAt(q, k - 1);
      StepSpecified(q.job, q.states[k - 1], q.moves[k - 1]);
    }
  }

  /** What reaches the loop does not lose its task. */
  lemma {:induction false} DeliveryLosesNothing(s: System, delivery: Delivery, job: Job)
    requires LoopOk(s, job) && PhasesSpecified(s) && !Doomed(s) && !s.worker.finished
    requires DeliveryReady(s, Some(delivery)) && delivery.call in s.worker.calls
    ensures !LosesTask(s.worker.stage, s.worker.calls[delivery.call], delivery.reply)
  {
    if s.worker.calls[delivery.call].SnarkCall? && delivery.reply.Refused? {
      SnarkCallMeans(s, job, delivery.call);
      OnlySnarkCall(s, job, delivery.call);
      assert Doomed(s);
    }
  }

  lemma {:induction false} EndTurnMatched(q: QuotaRun, k: nat)
    requires EndsTurn(q, k) && PhasesSpecified(q.states[k]) && !Doomed(q.states[k]) && AllMatched(q.states[k].worker)
    ensures AllMatched(q.states[k + 1].worker)
  {
    var s, e := q.states[k], q.moves[k].event;
    QuotaInv(q, k);
    EndTurnIs(q, k);
    EndTurnCalls(q, k);
    ReceivedOk(q, k);
    if e.delivery.Some? && e.delivery.value.call in s.worker.calls {
      DeliveryLosesNothing(s, e.delivery.value, q.job);
      ReceiveMatched(s.worker, e.delivery.value, e.receiveAt);
    }
    FinishMatched(Received(s, e), e, q.job);
  }

  lemma {:induction false} StepStaysMatched(q: QuotaRun, k: nat)
    requires IsQuotaRun(q) && HangFree(q) && AllSpecified(q) && k < |q.moves| && AllMatched(q.states[k].worker)
    ensures AllMatched(q.states[k + 1].worker)
  {
    assert MovesOn(q, k + 1);
    QuotaInv(q, k);
    RunSpecified(q, k);
    NeverDoomed(q, k);
    match q.moves[k]
    case HandOut(e) => SpawnMatched(q.states[k].worker, e, q.job);
    case EndTurn(_) => EndTurnMatched(q, k);
    case _ =>
  }

  /** As long as the provers answer with known codes, no work is ever lost or doubled: a task
      has one outstanding call if it is in progress, and none otherwise. */
  lemma {:induction false} WorkIsNeverLost(q: QuotaRun, k: nat)
    requires IsQuotaRun(q) && HangFree(q) && AllSpecified(q) && k < |q.states|
    ensures AllMatched(q.states[k].worker)
    ensures OneCallEach(q.states[k].worker.stage, q.states[k].worker.calls)
  {
    if k == 0 {
      assert MovesOn(q, 0);
    } else {
      WorkIsNeverLost(q, k - 1);
      StepStaysMatched(q, k - 1);
    }
    QuotaInv(q, k);
    MatchedMeansOneEach(q.states[k].worker.stage, q.states[k].worker.calls, q.states[k].worker.nextCall);
  }

  /** And the loop never stalls: between two turns it has ended, has an outstanding call,
      makes one in the next turn, or ends with it. */
  lemma {:induction false} NeverStuck(q: QuotaRun, k: nat, e: Event)
    requires IsQuotaRun(q) && HangFree(q) && AllSpecified(q) && q.gen.maxProverNum >= 1
    requires k < |q.states| && q.states[k].half.None? && SegmentsPresent(q.states[k].worker.stage, e.segments)
    ensures q.states[k].worker.finished || Moving(q.states[k].worker, e)
  {
    var w := q.states[k].worker;
    QuotaInv(q, k);
    QuotaGen(q, k);
    WorkIsNeverLost(q, k);
    LoopMakesRun(q, k);
    var h :| EndsIn(h, q.job, q.gen, w);
    RunSettled(h, |h.events|);
    if !w.finished {
      LoopMoves(w, e, q.job);
    }
  }
}
