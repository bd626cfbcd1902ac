/** What an answer does: to the task it is about, to what the worker saves, and to the run.  A
    run is in error exactly if an answer has broken it. */
module WorkerAnswers {
  import opened Receipts
  import opened Tasks
  import opened ProverReplies
  import opened StageSpec
  import opened StageInvariant
  import opened WorkerSpec
  import opened WorkerCalls
  import opened WorkerInvariant
  import opened WorkerSafety
  import opened WorkerRetries

  // Done, failed, back to the queue, or without effect.
  datatype Verdict = Done | Broken | Back | Lost

  /** What a reply means for the task of the call. */
  function VerdictOf(call: Task, r: Reply): Verdict {
    match r
    case Answer(Ok, _, _, _, _) => Done
    case Refused => if call.SnarkCall? then Lost else Back
    case NoNode => Back
    case Unreachable => if call.SnarkCall? then Broken else Back
    case NoResult => if call.SnarkCall? then Broken else Back
    case Answer(Busy, _, _, _, _) => if call.SnarkCall? then Broken else Back
    case Answer(Unspecified, _, _, _, _) => if call.SnarkCall? then Broken else Lost
    case Answer(_, _, _, _, _) => Broken
  }

  predicate Final(v: Verdict) {
    v == Done || v == Broken
  }

  function StateFor(v: Verdict): TaskState {
    match v
    case Done => Success
    case Broken => Failed
    case Back => Unprocessed
    case Lost => Processing
  }

  /** The trace once the task is answered: stamped if the answer was final. */
  function Finished(t: Trace, v: Verdict, now: nat): Trace {
    if Final(v) then Trace(t.startTs, now, t.nodeInfo) else t
  }

  ghost predicate SplitAnswered(w: Worker, w1: Worker, r: Reply, now: nat) {
    var t, t1, v := w.stage.splitTask, w1.stage.splitTask, VerdictOf(SplitCall(w.stage.splitTask), r);
    && t1.taskId == t.taskId && t1.state == StateFor(v) && t1.trace == Finished(t.trace, v, now)
    && (r.Answer? ==> t1.totalSteps == r.totalSteps && t1.totalSegments == r.totalSegments)
    && w1.stage == w.stage.(splitTask := t1, isError := w.stage.isError || v == Broken)
  }

  lemma {:induction false} SplitTakes(w: Worker, c: CallId, r: Reply, now: nat)
    requires c in w.calls && w.calls[c].SplitCall? && w.stage.splitTask.state == Processing
    ensures SplitAnswered(w, Receive(w, Some(Delivery(c, r)), now), r, now)
  {
  }

  ghost predicate SnarkAnswered(w: Worker, w1: Worker, call: Task, r: Reply, now: nat)
    requires call.SnarkCall?
  {
    var t, t1, v := w.stage.snarkTask, w1.stage.snarkTask, VerdictOf(call, r);
    && t1 == t.(state := StateFor(v), trace := Finished(t.trace, v, now), output := t1.output)
    && t1.output == (if v == Done then SnarkProof(call.snark.aggReceipt) else if v == Broken then call.snark.output else t.output)
    && w1.stage == w.stage.(
         snarkTask := t1, isError := w.stage.isError || v == Broken,
         snarkFile := Some(if v == Done then SnarkProof(call.snark.aggReceipt) else call.snark.output))
  }

  lemma {:induction false} SnarkTakes(w: Worker, c: CallId, r: Reply, now: nat)
    requires c in w.calls && w.calls[c].SnarkCall? && w.calls[c].snark.state == w.stage.snarkTask.state == Processing
    ensures SnarkAnswered(w, Receive(w, Some(Delivery(c, r)), now), w.calls[c], r, now)
  {
  }

  /** What a verdict makes of a listed segment. */
  predicate SegmentAnswered(t: ProveTask, t1: ProveTask, call: ProveTask, v: Verdict, r: Reply, now: nat)
    requires Final(v) ==> r.Answer?
  {
    && t1.state == StateFor(v) && t1.taskId == t.taskId && t1.fileNo == t.fileNo && t1.isDeferred == t.isDeferred
    && t1.trace == (if Final(v) then Trace(t.trace.startTs, now, r.node) else t.trace)
    && t1.output == match v
         case Done => SegmentProof(call.fileNo)
         case Broken => r.junk
         case _ => t.output
  }

  /** The listed segment the answer is about, if any, and no other. */
  ghost predicate ProveAnswered(w: Worker, w1: Worker, call: Task, r: Reply, now: nat)
    requires call.ProveCall?
  {
    && w1.stage == w.stage.(
         proveTasks := w1.stage.proveTasks, aggTasks := w1.stage.aggTasks, isError := w1.stage.isError)
    && |w1.stage.proveTasks| == |w.stage.proveTasks|
    && forall i :: 0 <= i < |w.stage.proveTasks| ==>
         var t, t1 := w.stage.proveTasks[i], w1.stage.proveTasks[i];
         if t.taskId == call.prove.taskId then SegmentAnswered(t, t1, call.prove, VerdictOf(call, r), r, now) else t1 == t
  }

  lemma ProveVerdict(t: ProveTask, r: Reply)
    ensures var m, v := ProveReply(t, r), VerdictOf(ProveCall(t), r);
      && m.state == StateFor(v) && m.taskId == t.taskId && (Final(v) ==> r.Answer?)
      && (Final(v) ==> m.trace.nodeInfo == r.node && m.output == if v == Done then SegmentProof(t.fileNo) else r.junk)
  {
  }

  lemma {:induction false} ProveAccepts(s: StageState, m: ProveTask, call: ProveTask, v: Verdict, r: Reply, now: nat, i: nat)
    requires i < |s.proveTasks| && FirstWhere(s.proveTasks, RunningProve(m.taskId)) == i && m.state == StateFor(v)
    requires Final(v) ==>
      r.Answer? && m.trace.nodeInfo == r.node && m.output == if v == Done then SegmentProof(call.fileNo) else r.junk
    ensures var s1 := AcceptProve(s, m, now);
      && s1 == s.(proveTasks := s.proveTasks[i := s1.proveTasks[i]], isError := s1.isError)
      && |s1.proveTasks| == |s.proveTasks| && SegmentAnswered(s.proveTasks[i], s1.proveTasks[i], call, v, r, now)
  {
    assert s.proveTasks[i := s.proveTasks[i]] == s.proveTasks;
  }

  lemma {:induction false} ProveTakes(w: Worker, c: CallId, r: Reply, now: nat)
    requires c in w.calls && w.calls[c].ProveCall? && IdsOk(w.stage) && ProveCallOk(w.stage, w.calls[c].prove)
    ensures ProveAnswered(w, Receive(w, Some(Delivery(c, r)), now), w.calls[c], r, now)
  {
    var s, t := w.stage, w.calls[c].prove;
    var m := ProveReply(t, r);
    var i := FirstWhere(s.proveTasks, RunningProve(m.taskId));
    ProveVerdict(t, r);
    ProveReceived(w, c, r, now);
    if j :| 0 <= j < |s.proveTasks| && s.proveTasks[j].taskId == m.taskId {
      FirstWhereIs(s.proveTasks, RunningProve(m.taskId), j);
      ProveAccepts(s, m, t, VerdictOf(w.calls[c], r), r, now, i);
    }
  }

  lemma ProveReceived(w: Worker, c: CallId, r: Reply, now: nat)
    requires c in w.calls && w.calls[c].ProveCall?
    ensures var s1 := AcceptProve(w.stage, ProveReply(w.calls[c].prove, r), now);
      var w1 := Receive(w, Some(Delivery(c, r)), now);
      && w1.stage == s1.(aggTasks := w1.stage.aggTasks)
      && s1 == w.stage.(proveTasks := s1.proveTasks, isError := s1.isError)
  {
  }

  /** The listed agg task the answer is about. */
  ghost predicate AggAnswers(w: Worker, w1: Worker, call: Task, r: Reply, now: nat)
    requires call.AggCall?
  {
    var v, p := VerdictOf(call, r), call.agg.taskId - Base(w.stage);
    && 0 <= p < |w.stage.aggTasks| == |w1.stage.aggTasks|
    && var t, t1 := w.stage.aggTasks[p], w1.stage.aggTasks[p];
       && t1.taskId == call.agg.taskId == t.taskId && t1.state == StateFor(v) && t1.trace == Finished(t.trace, v, now)
       && t1.output == (match v
            case Done => Aggregate(InputReceipts(call.agg.inputs))
            case Broken => r.junk
            case _ => t.output)
       && w1.stage == w.stage.(
            aggTasks := w1.stage.aggTasks, isError := w.stage.isError || v == Broken,
            snarkFile := if v == Done && t.isFinal && w.stage.gen.targetStep == Agg then Some(t1.output) else w.stage.snarkFile)
  }

  lemma AggVerdict(t: AggTask, r: Reply)
    ensures var m, v := AggReply(t, r), VerdictOf(AggCall(t), r);
      && m.state == StateFor(v) && m.taskId == t.taskId && m.isFinal == t.isFinal
      && (v == Done ==> m.output == Aggregate(InputReceipts(t.inputs))) && (v == Broken ==> m.output == r.junk)
  {
  }

  lemma {:induction false} AggAccepts(s: StageState, m: AggTask, v: Verdict, now: nat, p: nat)
    requires p < |s.aggTasks| && FirstWhere(s.aggTasks, RunningAgg(m.taskId)) == p && m.state == StateFor(v)
    ensures var s1 := AcceptAgg(s, m, now);
      && s1 == s.(aggTasks := s1.aggTasks, isError := s.isError || v == Broken)
      && |s1.aggTasks| == |s.aggTasks| && s1.aggTasks[p].taskId == m.taskId
      && s1.aggTasks[p].state == StateFor(v) && s1.aggTasks[p].trace == Finished(s.aggTasks[p].trace, v, now)
      && s1.aggTasks[p].output == (if Final(v) then m.output else s.aggTasks[p].output)
  {
    assert s.(aggTasks := s.aggTasks, isError := s.isError) == s;
  }

  lemma {:induction false} AggTakes(w: Worker, c: CallId, r: Reply, now: nat)
    requires c in w.calls && w.calls[c].AggCall? && TasksOk(w.stage) && AggCallOk(w.stage, w.calls[c].agg)
    ensures AggAnswers(w, Receive(w, Some(Delivery(c, r)), now), w.calls[c], r, now)
  {
    var t, s := w.calls[c].agg, w.stage;
    var m, p := AggReply(t, r), t.taskId - Base(s);
    AggVerdict(t, r);
    FirstWhereIs(s.aggTasks, RunningAgg(m.taskId), p);
    AggAccepts(s, m, VerdictOf(AggCall(t), r), now, p);
    ClearAggKeeps(AcceptAgg(s, m, now).aggTasks, m.taskId);
  }

  // What an iteration takes

  /** The answer that iteration k receives is about this call. */
  ghost predicate Receives(h: History, k: nat, call: Task, r: Reply) {
    && IsRun(h) && k < |h.events| && !h.states[k].finished
    && var w, delivery := Spawn(h.states[k], h.events[k]), h.events[k].delivery;
       delivery.Some? && delivery.value.call in w.calls && w.calls[delivery.value.call] == call && delivery.value.reply == r
  }

  /** In every run, an answer does to its task what its verdict says. */
  lemma {:induction false} AnswerTaken(h: History, k: nat, call: Task, r: Reply)
    requires Receives(h, k, call, r)
    ensures var w, now := Spawn(h.states[k], h.events[k]), h.events[k].receiveAt;
      var w1 := Receive(w, h.events[k].delivery, now);
      match call
      case SplitCall(_) => SplitAnswered(w, w1, r, now)
      case ProveCall(_) => ProveAnswered(w, w1, call, r, now)
      case AggCall(_) => AggAnswers(w, w1, call, r, now)
      case SnarkCall(_) => SnarkAnswered(w, w1, call, r, now)
  {
    var w, now, c := Spawn(h.states[k], h.events[k]), h.events[k].receiveAt, h.events[k].delivery.value.call;
    RunInv(h, k);
    SpawnInv(h.states[k], h.events[k], h.job);
    assert CallOk(w.stage, call);
    match call
    case SplitCall(_) => SplitTakes(w, c, r, now);
    case ProveCall(_) => ProveTakes(w, c, r, now);
    case AggCall(_) => AggTakes(w, c, r, now);
    case SnarkCall(_) => SnarkTakes(w, c, r, now);
  }

  // What is saved

  /** The trace that is saved with the answer: when the call was made, when it came back, and
      from where. */
  function SavedTrace(call: Task, r: Reply, now: nat): Trace {
    match call
    case SplitCall(t) => Trace(t.trace.startTs, now, if r.Answer? then r.node else t.trace.nodeInfo)
    case SnarkCall(t) => Trace(t.trace.startTs, now, if VerdictOf(call, r) == Done then r.node else t.trace.nodeInfo)
    case _ => NO_TRACE
  }

  lemma SpawnSaves(w: Worker, e: Event)
    ensures Spawn(w, e).saved == w.saved
  {
  }

  /** The worker saves the traces of the split and snark tasks, whenever their answer is final,
      and no others. */
  lemma {:induction false} AnswerSaved(h: History, k: nat, call: Task, r: Reply)
    requires Receives(h, k, call, r)
    ensures h.states[k + 1].saved == h.states[k].saved +
      if (call.SplitCall? || call.SnarkCall?) && Final(VerdictOf(call, r))
      then [SavedTrace(call, r, h.events[k].receiveAt)] else []
  {
    assert Follows(h, k + 1);
    SpawnSaves(h.states[k], h.events[k]);
    RunInv(h, k);
    SpawnInv(h.states[k], h.events[k], h.job);
    assert CallOk(Spawn(h.states[k], h.events[k]).stage, call);
    var w, now := Spawn(h.states[k], h.events[k]), h.events[k].receiveAt;
    TakeSaves(w, h.events[k].delivery.value.call, call, r, now);
    SpawnPhase(h.states[k], h.events[k]);
  }

  lemma {:induction false} TakeSaves(w: Worker, c: CallId, call: Task, r: Reply, now: nat)
    requires c in w.calls && w.calls[c] == call && (call.SnarkCall? ==> call.snark.state == Processing)
    ensures Receive(w, Some(Delivery(c, r)), now).saved == w.saved +
      if (call.SplitCall? || call.SnarkCall?) && Final(VerdictOf(call, r)) then [SavedTrace(call, r, now)] else []
    ensures Receive(w, Some(Delivery(c, r)), now).finished == w.finished
  {
  }

  // What breaks the run

  /** Iteration k receives the answer that breaks the run: a failed split, aggregation or snark
      proof, or a segment's fourth failure. */
  ghost predicate Breaks(h: History, k: nat) {
    && IsRun(h) && k < |h.events| && !h.states[k].finished
    && var w, e := h.states[k], h.events[k];
       || (e.delivery.Some? && e.delivery.value.call in Spawn(w, e).calls
           && !Spawn(w, e).calls[e.delivery.value.call].ProveCall?
           && VerdictOf(Spawn(w, e).calls[e.delivery.value.call], e.delivery.value.reply) == Broken)
       || (FailedId(w, e).Some? && Failures(h.events, h.states, FailedId(w, e).value, k + 1) == 4)
  }

  lemma {:induction false} BreaksByFailure(h: History, k: nat)
    requires IsRun(h) && k < |h.events| && !h.states[k].finished && FailedId(h.states[k], h.events[k]).Some?
    ensures h.states[k + 1].stage.isError <==> Breaks(h, k)
  {
    FourthFailureEnds(h, k, FailedId(h.states[k], h.events[k]).value);
  }

  lemma {:induction false} SilentKeeps(w: Worker, delivery: Option<Delivery>, now: nat)
    requires delivery.None? || delivery.value.call !in w.calls || w.calls[delivery.value.call].ProveCall?
    requires FailedIn(w, delivery).None?
    ensures Receive(w, delivery, now).stage.isError == w.stage.isError
  {
  }

  /** The iteration's error is that of the stage before it dispatches. */
  lemma {:induction false} ErrorBeforeDispatch(h: History, k: nat)
    requires IsRun(h) && k < |h.events| && !h.states[k].finished
    ensures var w, e := h.states[k], h.events[k];
      && h.states[k + 1].stage.isError == Receive(Spawn(w, e), e.delivery, e.receiveAt).stage.isError
      && (h.states[k + 1].stage.isError ==> h.states[k + 1].finished)
      && !Spawn(w, e).stage.isError
  {
    var w, e := h.states[k], h.events[k];
    assert Follows(h, k + 1);
    RunInv(h, k);
    SpawnInv(w, e, h.job);
    SpawnPhase(w, e);
    StepsVisited(h, k, k);
    BeforeFinish(w, e);
    FinishError(Receive(Spawn(w, e), e.delivery, e.receiveAt), e);
  }

  /** In every run, the iteration that receives such an answer, and no other, puts the stage in
      error, and ends the run. */
  lemma {:induction false} BreaksEndRun(h: History, k: nat)
    requires IsRun(h) && k < |h.events| && !h.states[k].finished
    ensures h.states[k + 1].stage.isError <==> Breaks(h, k)
    ensures h.states[k + 1].stage.isError ==> h.states[k + 1].finished
  {
    var w, e := Spawn(h.states[k], h.events[k]), h.events[k];
    ErrorBeforeDispatch(h, k);
    if FailedId(h.states[k], e).Some? {
      BreaksByFailure(h, k);
    } else if e.delivery.None? || e.delivery.value.call !in w.calls || w.calls[e.delivery.value.call].ProveCall? {
      SilentKeeps(w, e.delivery, e.receiveAt);
    } else {
      AnswerTaken(h, k, w.calls[e.delivery.value.call], e.delivery.value.reply);
    }
  }

  lemma {:induction false} ErrorStep(h: History, k: nat)
    requires IsRun(h) && k < |h.events|
    ensures h.states[k + 1].stage.isError <==> h.states[k].stage.isError || Breaks(h, k)
  {
    assert Follows(h, k + 1);
    RunInv(h, k);
    if !h.states[k].finished {
      BreaksEndRun(h, k);
    }
  }

  lemma {:induction false} StartsSound(h: History)
    requires IsRun(h)
    ensures !h.states[0].stage.isError
  {
    assert Follows(h, 0);
  }

  ghost predicate BrokenBefore(h: History, k: nat) {
    exists j :: 0 <= j < k && Breaks(h, j)
  }

  lemma BrokenStep(h: History, k: nat)
    ensures BrokenBefore(h, k + 1) <==> BrokenBefore(h, k) || Breaks(h, k)
  {
  }

  /** A run is in error if and only if it has received such an answer. */
  lemma {:induction false} InErrorIffBroken(h: History, k: nat)
    requires IsRun(h) && k <= |h.events|
    ensures h.states[k].stage.isError <==> BrokenBefore(h, k)
  {
    if k == 0 {
      StartsSound(h);
    } else {
      InErrorIffBroken(h, k - 1);
      ErrorStep(h, k - 1);
      BrokenStep(h, k - 1);
    }
  }
}
