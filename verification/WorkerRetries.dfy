/** How often a segment may fail: the failure count of a listed task is the number of failed
    answers about it, and the fourth one ends the run. */
module WorkerRetries {
  import opened Receipts
  import opened DeferredFiles
  import opened Tasks
  import opened ProverReplies
  import opened StageSpec
  import opened StageInvariant
  import opened StageBuild
  import opened StageSteps
  import opened StageProgress
  import opened WorkerSpec
  import opened WorkerInvariant
  import opened WorkerSafety
  import opened WorkerTermination
  import opened WorkerSchedules

  /** The listed segment in progress that a failed answer is about. */
  function FailedIn(w: Worker, delivery: Option<Delivery>): Option<TaskId> {
    if delivery.None? || delivery.value.call !in w.calls then None
    else
      var call := w.calls[delivery.value.call];
      if call.ProveCall? && ProveReply(call.prove, delivery.value.reply).state == Failed
         && FirstWhere(w.stage.proveTasks, RunningProve(call.prove.taskId)) < |w.stage.proveTasks|
      then Some(call.prove.taskId)
      else None
  }

  /** The segment whose failure an iteration receives. */
  function FailedId(w: Worker, e: Event): Option<TaskId> {
    if w.finished then None else FailedIn(Spawn(w, e), e.delivery)
  }

  /** The failures of a segment that the first k iterations receive. */
  function Failures(events: seq<Event>, states: seq<Worker>, id: TaskId, k: nat): nat
    requires k <= |events| < |states|
  {
    if k == 0 then 0
    else Failures(events, states, id, k - 1) + if FailedId(states[k - 1], events[k - 1]) == Some(id) then 1 else 0
  }

  function Capped(n: nat): nat {
    if n < MAX_FAILURES then n else MAX_FAILURES
  }

  /** The task at position i of s1 is new, or was there in s and has counted this failure. */
  ghost predicate CountMoves(s: StageState, s1: StageState, failed: Option<TaskId>, i: nat) {
    i < |s1.proveTasks| ==>
      var t1 := s1.proveTasks[i];
      || (t1.taskId >= s.nextId && t1.failureCount == 0)
      || (i < |s.proveTasks| && t1.taskId == s.proveTasks[i].taskId
          && t1.failureCount
             == Capped(s.proveTasks[i].failureCount + if failed == Some(t1.taskId) then 1 else 0))
  }

  ghost predicate CountsMove(s: StageState, s1: StageState, failed: Option<TaskId>) {
    s1.nextId >= s.nextId && forall i :: CountMoves(s, s1, failed, i)
  }

  ghost predicate CountsOk(s: StageState) {
    forall i :: 0 <= i < |s.proveTasks| ==> s.proveTasks[i].failureCount <= MAX_FAILURES
  }

  // Handing out

  lemma SpawnProveCounts(w: Worker, segments: set<nat>, now: nat)
    requires CountsOk(w.stage)
    ensures CountsMove(w.stage, SpawnProve(w, segments, now).stage, None)
    ensures |SpawnProve(w, segments, now).stage.proveTasks| == |w.stage.proveTasks|
    ensures SpawnProve(w, segments, now).stage.nextId == w.stage.nextId
  {
  }

  lemma {:induction false} SpawnCounts(w: Worker, e: Event)
    requires CountsOk(w.stage)
    ensures CountsMove(w.stage, Spawn(w, e).stage, None)
    ensures |Spawn(w, e).stage.proveTasks| == |w.stage.proveTasks| && Spawn(w, e).stage.nextId == w.stage.nextId
  {
    var w1 := SpawnSplit(w, e.splitAt);
    var w2 := SpawnProve(w1, e.segments, e.proveAt);
    var w3 := SpawnAgg(w2, e.aggAt);
    SpawnSplitLists(w, e.splitAt);
    SpawnProveCounts(w1, e.segments, e.proveAt);
    SpawnAggProves(w2, e.aggAt);
    SpawnSnarkLists(w3, e.snarkAt);
    forall i
      ensures CountMoves(w.stage, Spawn(w, e).stage, None, i)
    {
      assert CountMoves(w1.stage, w2.stage, None, i);
    }
  }

  // Receiving

  lemma {:induction false} AcceptCounts(s: StageState, m: ProveTask, now: nat)
    requires IdsOk(s) && CountsOk(s)
    ensures var failed :=
        if m.state == Failed && FirstWhere(s.proveTasks, RunningProve(m.taskId)) < |s.proveTasks| then Some(m.taskId)
        else None;
      CountsMove(s, AcceptProve(s, m, now), failed)
  {
  }

  lemma ReceivedProve(w: Worker, delivery: Delivery, now: nat)
    requires delivery.call in w.calls && w.calls[delivery.call].ProveCall?
    ensures var s1 := Receive(w, Some(delivery), now).stage;
      && s1.proveTasks == AcceptProve(w.stage, ProveReply(w.calls[delivery.call].prove, delivery.reply), now).proveTasks
      && s1.nextId == w.stage.nextId
  {
  }

  lemma SameListCounts(s: StageState, s1: StageState, s2: StageState, failed: Option<TaskId>)
    requires CountsMove(s, s1, failed) && s2.proveTasks == s1.proveTasks && s2.nextId == s1.nextId
    ensures CountsMove(s, s2, failed)
  {
    forall i
      ensures CountMoves(s, s2, failed, i)
    {
      assert CountMoves(s, s1, failed, i);
    }
  }

  lemma OtherReceived(w: Worker, delivery: Option<Delivery>, now: nat)
    requires delivery.Some? && delivery.value.call in w.calls ==> !w.calls[delivery.value.call].ProveCall?
    ensures Receive(w, delivery, now).stage.proveTasks == w.stage.proveTasks
    ensures Receive(w, delivery, now).stage.nextId == w.stage.nextId
  {
  }

  lemma {:induction false} ReceiveCounts(w: Worker, delivery: Option<Delivery>, now: nat)
    requires IdsOk(w.stage) && CountsOk(w.stage)
    ensures CountsMove(w.stage, Receive(w, delivery, now).stage, FailedIn(w, delivery))
  {
    var s1 := Receive(w, delivery, now).stage;
    if delivery.Some? && delivery.value.call in w.calls && w.calls[delivery.value.call].ProveCall? {
      var m := ProveReply(w.calls[delivery.value.call].prove, delivery.value.reply);
      AcceptCounts(w.stage, m, now);
      ReceivedProve(w, delivery.value, now);
      SameListCounts(w.stage, AcceptProve(w.stage, m, now), s1, FailedIn(w, delivery));
    } else {
      OtherReceived(w, delivery, now);
      assert CountsMove(w.stage, w.stage, None);
      SameListCounts(w.stage, w.stage, s1, None);
    }
  }

  // Dispatching

  lemma ExtendCounts(s: StageState, n: nat)
    requires CountsOk(s)
    ensures CountsMove(s, ExtendTo(s, n), None) && CountsOk(ExtendTo(s, n))
  {
  }

  lemma {:induction false} CountsMoveTwice(s: StageState, s1: StageState, s2: StageState)
    requires CountsMove(s, s1, None) && CountsMove(s1, s2, None) && CountsOk(s1)
    ensures CountsMove(s, s2, None)
  {
    forall i
      ensures CountMoves(s, s2, None, i)
    {
      assert CountMoves(s, s1, None, i) && CountMoves(s1, s2, None, i);
    }
  }

  lemma {:induction false} GenProveCounts(s: StageState, segmentsTxt: Option<nat>)
    requires CountsOk(s)
    ensures CountsMove(s, GenProve(s, segmentsTxt), None) && CountsOk(GenProve(s, segmentsTxt))
  {
    var s1 := if s.proveTasks == [] then ExtendTo(s, PREALLOCATED) else s;
    ExtendCounts(s, PREALLOCATED);
    if segmentsTxt.Some? {
      ExtendCounts(s1, segmentsTxt.value);
      CountsMoveTwice(s, s1, ExtendTo(s1, segmentsTxt.value));
    }
  }

  lemma {:induction false} PostCounts(s: StageState, listing: seq<DirEntry>)
    requires CountsOk(s)
    ensures CountsMove(s, GenProvePost(s, listing), None)
  {
    var fit, s1 := Fit(s), GenProvePost(s, listing);
    var more := DeferredTasks(SortByNumber(FilesIn(listing)), fit.nextId);
    ExtendCounts(s, s.splitTask.totalSegments);
    assert s1.proveTasks == fit.proveTasks + more;
    forall i
      ensures CountMoves(s, s1, None, i)
    {
      assert CountMoves(s, fit, None, i);
    }
  }

  lemma {:induction false} PreparedCounts(s: StageState, segmentsTxt: Option<nat>, listing: seq<DirEntry>)
    requires CountsOk(s)
    ensures CountsMove(s, Prepared(s, segmentsTxt, listing), None)
  {
    var s1 := GenProve(s, segmentsTxt);
    var s2, s3 := GenProvePost(s1, listing), GenTasks(s1, listing);
    GenProveCounts(s, segmentsTxt);
    PostCounts(s1, listing);
    CountsMoveTwice(s, s1, s2);
    assert s3.proveTasks == s2.proveTasks && s3.nextId >= s2.nextId;
    forall i
      ensures CountMoves(s, s3, None, i)
    {
      assert CountMoves(s, s2, None, i);
    }
  }

  lemma {:induction false} DispatchCounts(s: StageState, segmentsTxt: Option<nat>, listing: seq<DirEntry>)
    requires CountsOk(s) && s.step == Prove
    ensures CountsMove(s, Dispatch(s, segmentsTxt, listing), None)
  {
    var s1, s2 := Prepared(s, segmentsTxt, listing), Dispatch(s, segmentsTxt, listing);
    PreparedCounts(s, segmentsTxt, listing);
    DispatchPhase(s, segmentsTxt, listing);
    DispatchIds(s, segmentsTxt, listing);
    forall i
      ensures CountMoves(s, s2, None, i)
    {
      assert CountMoves(s, s1, None, i);
    }
  }

  lemma DispatchIds(s: StageState, segmentsTxt: Option<nat>, listing: seq<DirEntry>)
    requires s.step == Prove
    ensures Dispatch(s, segmentsTxt, listing).nextId >= Prepared(s, segmentsTxt, listing).nextId
  {
    AdvanceIds(Prepared(s, segmentsTxt, listing));
  }

  lemma {:induction false} FinishCounts(w: Worker, e: Event)
    requires CountsOk(w.stage) && (w.stage.step == Prove || w.stage.step == StageSpec.Snark || w.stage.step == End)
    ensures CountsMove(w.stage, Finish(w, e).stage, None)
  {
    if w.stage.step == Prove {
      DispatchCounts(w.stage, e.segmentsTxt, e.listing);
    }
  }

  // Over a whole run

  lemma ListedCounts(s: StageState)
    requires ProvesOk(s)
    ensures CountsOk(s)
  {
    forall i | 0 <= i < |s.proveTasks|
      ensures s.proveTasks[i].failureCount <= MAX_FAILURES
    {
      assert ProveOk(s.proveTasks[i], i);
    }
  }

  /** Handing out, receiving and dispatching, one after the other. */
  lemma {:induction false} CountsChain(s: StageState, s1: StageState, s2: StageState, s3: StageState, failed: Option<TaskId>)
    requires CountsMove(s, s1, None) && CountsMove(s1, s2, failed) && CountsMove(s2, s3, None)
    requires CountsOk(s) && IdsOk(s1) && CountsOk(s2) && s1.nextId == s.nextId
    ensures CountsMove(s, s3, failed)
  {
    forall i
      ensures CountMoves(s, s3, failed, i)
    {
      assert CountMoves(s, s1, None, i) && CountMoves(s1, s2, failed, i) && CountMoves(s2, s3, None, i);
    }
  }

  lemma {:induction false} FailedIsListed(w: Worker, delivery: Option<Delivery>)
    requires IdsOk(w.stage)
    ensures FailedIn(w, delivery).Some? ==> FailedIn(w, delivery).value < w.stage.nextId
  {
  }

  /** One iteration counts exactly the failure it receives. */
  lemma {:induction false} IterateCounts(h: History, k: nat)
    requires IsRun(h) && k < |h.events|
    ensures CountsMove(h.states[k].stage, h.states[k + 1].stage, FailedId(h.states[k], h.events[k]))
    ensures FailedId(h.states[k], h.events[k]).Some? ==>
      FailedId(h.states[k], h.events[k]).value < h.states[k].stage.nextId
  {
    var w, e := h.states[k], h.events[k];
    assert Follows(h, k + 1);
    RunInv(h, k);
    ListedCounts(w.stage);
    if !w.finished {
      var w1 := Spawn(w, e);
      var w2, f := Receive(w1, e.delivery, e.receiveAt), FailedIn(w1, e.delivery);
      SpawnInv(w, e, h.job);
      SpawnCounts(w, e);
      ListedCounts(w1.stage);
      ReceiveCounts(w1, e.delivery, e.receiveAt);
      FailedIsListed(w1, e.delivery);
      ReceiveCore(w1, e, h.job);
      ListedCounts(w2.stage);
      StepsVisited(h, k, k);
      BeforeFinish(w, e);
      FinishCounts(w2, e);
      CountsChain(w.stage, w1.stage, w2.stage, h.states[k + 1].stage, f);
    }
  }

  predicate Unfailed(h: History, k: nat, id: TaskId)
    requires k <= |h.events| < |h.states|
  {
    Failures(h.events, h.states, id, k) == 0
  }

  ghost predicate TaskTallied(h: History, k: nat, t: ProveTask)
    requires k <= |h.events| < |h.states|
  {
    t.failureCount == Capped(Failures(h.events, h.states, t.taskId, k))
  }

  /** Every listed task counts its failures; a segment not generated yet has none. */
  ghost predicate Tallied(h: History, k: nat)
    requires k <= |h.events| < |h.states|
  {
    var s := h.states[k].stage;
    && (forall i :: 0 <= i < |s.proveTasks| ==> TaskTallied(h, k, s.proveTasks[i]))
    && forall id :: id >= s.nextId ==> Unfailed(h, k, id)
  }

  lemma {:induction false} TallyMoves(h: History, k: nat, i: nat)
    requires k < |h.events| < |h.states| && Tallied(h, k) && i < |h.states[k + 1].stage.proveTasks|
    requires var s, failed := h.states[k].stage, FailedId(h.states[k], h.events[k]);
      CountMoves(s, h.states[k + 1].stage, failed, i) && (failed.Some? ==> failed.value < s.nextId)
    ensures TaskTallied(h, k + 1, h.states[k + 1].stage.proveTasks[i])
  {
    var s, t1 := h.states[k].stage, h.states[k + 1].stage.proveTasks[i];
    if t1.taskId >= s.nextId {
      assert Unfailed(h, k, t1.taskId);
    }
  }

  lemma {:induction false} StepTallied(h: History, k: nat)
    requires IsRun(h) && k < |h.events| && Tallied(h, k)
    ensures Tallied(h, k + 1)
  {
    var s, s1, m := h.states[k].stage, h.states[k + 1].stage, k + 1;
    IterateCounts(h, k);
    forall i | 0 <= i < |s1.proveTasks|
      ensures TaskTallied(h, m, s1.proveTasks[i])
    {
      assert CountMoves(s, s1, FailedId(h.states[k], h.events[k]), i);
      TallyMoves(h, k, i);
    }
    forall id | id >= s1.nextId
      ensures Unfailed(h, m, id)
    {
      assert Unfailed(h, k, id);
    }
  }

  /** In every run, the failure count of a listed task is the number of failed answers about
      it, up to three. */
  lemma {:induction false} FailuresCounted(h: History, k: nat)
    requires IsRun(h) && k <= |h.events|
    ensures Tallied(h, k)
  {
    if k > 0 {
      FailuresCounted(h, k - 1);
      StepTallied(h, k - 1);
    } else {
      assert Follows(h, 0);
    }
  }

  /** The position of the segment in the list, once the tasks are handed out. */
  function FailedAt(w: Worker, e: Event): nat {
    var failed, s1 := FailedId(w, e), Spawn(w, e).stage;
    if failed.None? then 0 else FirstWhere(s1.proveTasks, RunningProve(failed.value))
  }

  lemma {:induction false} FailureTaken(w: Worker, delivery: Option<Delivery>, now: nat)
    requires FailedIn(w, delivery).Some? && ProvesOk(w.stage) && !w.stage.isError
    ensures var i := FirstWhere(w.stage.proveTasks, RunningProve(FailedIn(w, delivery).value));
      && i < |w.stage.proveTasks| && w.stage.proveTasks[i].taskId == FailedIn(w, delivery).value
      && (Receive(w, delivery, now).stage.isError <==> w.stage.proveTasks[i].failureCount == MAX_FAILURES)
  {
    FourthFailureErrs(w.stage, ProveReply(w.calls[delivery.value.call].prove, delivery.value.reply), now);
  }

  lemma FinishError(w: Worker, e: Event)
    requires w.stage.step == Prove || w.stage.step == StageSpec.Snark || w.stage.step == End
    ensures Finish(w, e).stage.isError == w.stage.isError && (w.stage.isError ==> Finish(w, e).finished)
  {
    if w.stage.step == Prove && !w.stage.isError {
      DispatchNoError(w.stage, e.segmentsTxt, e.listing);
    }
  }

  lemma {:induction false} FailureErrs(h: History, k: nat)
    requires IsRun(h) && k < |h.events| && FailedId(h.states[k], h.events[k]).Some?
    ensures var s1, i := Spawn(h.states[k], h.events[k]).stage, FailedAt(h.states[k], h.events[k]);
      && i < |s1.proveTasks| && s1.proveTasks[i].taskId == FailedId(h.states[k], h.events[k]).value
      && (h.states[k + 1].stage.isError <==> s1.proveTasks[i].failureCount == MAX_FAILURES)
    ensures h.states[k + 1].stage.isError ==> h.states[k + 1].finished
  {
    var w, e := h.states[k], h.events[k];
    var w1 := Spawn(w, e);
    assert Follows(h, k + 1);
    RunInv(h, k);
    SpawnInv(w, e, h.job);
    SpawnPhase(w, e);
    ListedCounts(w1.stage);
    FailureTaken(w1, e.delivery, e.receiveAt);
    StepsVisited(h, k, k);
    BeforeFinish(w, e);
    FinishError(Receive(w1, e.delivery, e.receiveAt), e);
  }

  /** Handing out keeps the task at position i, its name and its count. */
  lemma {:induction false} SpawnKeepsCount(h: History, k: nat, i: nat)
    requires IsRun(h) && k < |h.events| && i < |Spawn(h.states[k], h.events[k]).stage.proveTasks|
    ensures i < |h.states[k].stage.proveTasks|
    ensures var t, t1 := h.states[k].stage.proveTasks[i], Spawn(h.states[k], h.events[k]).stage.proveTasks[i];
      t1.taskId == t.taskId && t1.failureCount == t.failureCount
  {
    var w, e := h.states[k], h.events[k];
    RunInv(h, k);
    ListedCounts(w.stage);
    SpawnCounts(w, e);
    SpawnInv(w, e, h.job);
    assert CountMoves(w.stage, Spawn(w, e).stage, None, i);
  }

  lemma {:induction false} HandedOutCount(h: History, k: nat)
    requires IsRun(h) && k < |h.events| && FailedId(h.states[k], h.events[k]).Some?
    ensures var s1, i := Spawn(h.states[k], h.events[k]).stage, FailedAt(h.states[k], h.events[k]);
      i < |s1.proveTasks| && s1.proveTasks[i].failureCount
         == Capped(Failures(h.events, h.states, FailedId(h.states[k], h.events[k]).value, k))
  {
    var i := FailedAt(h.states[k], h.events[k]);
    FailureErrs(h, k);
    SpawnKeepsCount(h, k, i);
    FailuresCounted(h, k);
    assert TaskTallied(h, k, h.states[k].stage.proveTasks[i]);
  }

  /** A segment's failure ends the run in error if and only if it is the fourth. */
  lemma {:induction false} FourthFailureEnds(h: History, k: nat, id: TaskId)
    requires IsRun(h) && k < |h.events| && FailedId(h.states[k], h.events[k]) == Some(id)
    ensures h.states[k + 1].stage.isError <==> Failures(h.events, h.states, id, k + 1) == 4
    ensures h.states[k + 1].stage.isError ==> h.states[k + 1].finished
  {
    FailureErrs(h, k);
    HandedOutCount(h, k);
    NeverFifth(h, k, id);
  }

  /** No segment fails five times, and if the run goes on, none has failed four times. */
  lemma {:induction false} NeverFifth(h: History, k: nat, id: TaskId)
    requires IsRun(h) && k <= |h.events|
    ensures Failures(h.events, h.states, id, k) <= if h.states[k].finished then 4 else 3
  {
    if k > 0 {
      NeverFifth(h, k - 1, id);
      assert Follows(h, k);
      if FailedId(h.states[k - 1], h.events[k - 1]) == Some(id) {
        FailureErrs(h, k - 1);
        HandedOutCount(h, k - 1);
      }
    }
  }

  // A run that fails

  /** After n failures of segment 0, between two turns. */
  ghost predicate FailedOften(h: History, gen: GenerateTask, n: nat) {
    && IsRun(h) && h.job == JOB && h.gen == gen && |h.events| == n + 1
    && var w := h.states[n + 1];
       && Resting(w.stage) && w.now == 0 && !w.finished && w.calls.Keys == {0} && w.nextCall >= 1
       && Ready(w.stage.proveTasks[0].state) && w.stage.proveTasks[0].failureCount == n
  }

  lemma {:induction false} RunLists(gen: GenerateTask)
    requires Proves(gen)
    ensures exists h :: FailedOften(h, gen, 0)
  {
    var h := History(JOB, gen, [], [Start(gen)]);
    RunStarts(JOB, gen);
    EventsOk({}, 0, Refused);
    RunGoesOn(h, IDLE);
    FinishLists(gen);
    ListedRests(gen);
    assert FailedOften(History(JOB, gen, [IDLE], [Start(gen), FirstWorker(gen)]), gen, 0);
  }

  /** The segment fails on two nodes in turn, as prove skips the node it failed on last. */
  function Failure(n: nat): Reply {
    Answer(InternalError, if n % 2 == 0 then "n" else "m", EMPTY, 0, 0)
  }

  function FailsNext(h: History): Event
    requires |h.states| > 0
  {
    Delivers({0}, h.states[|h.states| - 1].nextCall, Failure(|h.events|))
  }

  function Longer(h: History, e: Event): History
    requires |h.states| > |h.events|
  {
    h.(events := h.events + [e], states := h.states + [Iterate(h.states[|h.events|], e)])
  }

  lemma {:induction false} FailedOnceMore(h: History, gen: GenerateTask, n: nat)
    requires Proves(gen) && FailedOften(h, gen, n) && n < MAX_FAILURES
    ensures FailedOften(Longer(h, FailsNext(h)), gen, n + 1)
  {
    var w := h.states[n + 1];
    RunInv(h, n + 1);
    RunGen(h, n + 1);
    EventsOk({0}, w.nextCall, Failure(|h.events|));
    RunGoesOn(h, FailsNext(h));
    TriedTurn(w, 0, Failure(|h.events|));
    TriedRests(w.stage, 0, Failure(|h.events|));
  }

  lemma {:induction false} RunFails(gen: GenerateTask, n: nat)
    requires Proves(gen) && n <= MAX_FAILURES
    ensures exists h :: FailedOften(h, gen, n)
  {
    if n == 0 {
      RunLists(gen);
    } else {
      RunFails(gen, n - 1);
      var h :| FailedOften(h, gen, n - 1);
      FailedOnceMore(h, gen, n - 1);
    }
  }

  lemma {:induction false} FailsAgain(w: Worker, n: nat)
    requires Resting(w.stage) && IdsOk(w.stage) && w.now == 0 && !w.finished && w.stage.gen.maxProverNum >= 1
    requires Ready(w.stage.proveTasks[0].state)
    ensures var e := Delivers({0}, w.nextCall, Failure(n));
      && FailedId(w, e).Some? && Spawn(w, e).stage == Marked(w.stage, 0) && FailedAt(w, e) == 0
  {
    var w1 := Busied(w, 0);
    SpawnFound(w, {0}, w.nextCall, Failure(n));
    SpawnOne(w, 0);
    FirstWhereIs(w1.stage.proveTasks, RunningProve(w1.stage.proveTasks[0].taskId), 0);
  }

  /** The run goes on after three failures of a segment, and its next iteration errs. */
  ghost predicate ErrsAfterThree(h: History, gen: GenerateTask) {
    && IsRun(h) && h.gen == gen && |h.events| == MAX_FAILURES + 2
    && !h.states[MAX_FAILURES + 1].finished && h.states[MAX_FAILURES + 2].stage.isError
  }

  lemma {:induction false} FourthErrs(h: History, gen: GenerateTask)
    requires Proves(gen) && FailedOften(h, gen, MAX_FAILURES)
    ensures ErrsAfterThree(Longer(h, FailsNext(h)), gen)
  {
    var w, h1 := h.states[MAX_FAILURES + 1], Longer(h, FailsNext(h));
    RunInv(h, MAX_FAILURES + 1);
    RunGen(h, MAX_FAILURES + 1);
    EventsOk({0}, w.nextCall, Failure(|h.events|));
    RunGoesOn(h, FailsNext(h));
    FailsAgain(w, |h.events|);
    FailureErrs(h1, MAX_FAILURES + 1);
  }

  /** Every request that proves segments has a run in which a segment fails three times and is
      tried again, and whose fourth failure is its end. */
  lemma {:induction false} FourFailuresPossible(gen: GenerateTask)
    requires Proves(gen)
    ensures exists h :: ErrsAfterThree(h, gen)
  {
    RunFails(gen, MAX_FAILURES);
    var h :| FailedOften(h, gen, MAX_FAILURES);
    FourthErrs(h, gen);
  }
}
