/** What the quota adds to the runs of the event loop: what cur_prover_num counts, that the
    loop still makes one of its runs, and exactly when a snark call's refusal hangs it. */
module QuotaInvariant {
  import opened Tasks
  import opened ProverReplies
  import opened StageSpec
  import opened StageInvariant
  import opened WorkerSpec
  import opened WorkerCalls
  import opened WorkerInvariant
  import opened WorkerSafety
  import opened WorkerClock
  import opened StageSteps
  import opened QuotaSpec

  function Admitted(phases: map<CallId, Phase>): set<CallId> {
    set c | c in phases && phases[c].Counted?
  }

  /** cur_prover_num counts the admitted calls and the skips, within its bound. */
  ghost predicate CountOk(s: System) {
    && s.phases.Keys == s.worker.calls.Keys
    && s.count == |Admitted(s.phases)| + s.skips <= Limit(s)
  }

  ghost predicate LoopOk(s: System, job: Job) {
    && Inv(s.worker, job)
    && (s.half.Some? ==>
         var top, e := s.half.value.top, s.half.value.event;
         Inv(top, job) && !top.finished && EventOk(job, top.now, e) && s.worker == Spawn(top, e))
  }

  ghost predicate SystemOk(s: System, job: Job) {
    CountOk(s) && LoopOk(s, job)
  }

  // The counter

  lemma PhaseSet(phases: map<CallId, Phase>, c: CallId, p: Phase)
    requires c in phases
    ensures Admitted(phases[c := p]) == if p.Counted? then Admitted(phases) + {c} else Admitted(phases) - {c}
  {
  }

  /** Calls that are over leave, and new ones come in uncounted. */
  lemma PhasesOfCounts(phases: map<CallId, Phase>, calls: map<CallId, Task>)
    requires forall c :: c in phases && phases[c].Counted? ==> c in calls
    ensures Admitted(PhasesOf(phases, calls)) == Admitted(phases)
    ensures PhasesOf(phases, calls).Keys == calls.Keys
  {
  }

  lemma PhaseMoved(s: System, c: CallId, p: Phase, count: nat, skips: nat)
    requires CountOk(s) && c in s.phases
    requires count + One(s.phases[c].Counted?) + s.skips == s.count + One(p.Counted?) + skips
    requires count <= Limit(s)
    ensures CountOk(s.(phases := s.phases[c := p], count := count, skips := skips))
  {
    PhaseSet(s.phases, c, p);
  }

  function One(b: bool): nat {
    if b then 1 else 0
  }

  lemma {:induction false} CountedPositive(s: System, c: CallId)
    requires CountOk(s) && c in s.phases && s.phases[c].Counted?
    ensures s.count > 0
  {
    assert c in Admitted(s.phases);
  }

  lemma {:induction false} CallMoveCounts(s: System, m: Move, job: Job)
    requires CountOk(s) && Enabled(job, s, m) && !m.HandOut? && !m.EndTurn?
    ensures CountOk(Next(s, m))
  {
    if m.Respond? {
      CountedPositive(s, m.c);
    }
    PhaseMoved(s, m.c, Next(s, m).phases[m.c], Next(s, m).count, Next(s, m).skips);
  }

  /** Handing out adds calls and takes none away. */
  ghost predicate CallsGrow(w: Worker, w1: Worker) {
    forall c :: c in w.calls ==> c in w1.calls && w1.calls[c] == w.calls[c]
  }

  lemma SpawnGrows(w: Worker, e: Event, job: Job)
    requires Inv(w, job)
    ensures CallsGrow(w, Spawn(w, e))
  {
    var w1 := SpawnSplit(w, e.splitAt);
    var w2 := SpawnProve(w1, e.segments, e.proveAt);
    var w3 := SpawnAgg(w2, e.aggAt);
    SpawnSplitInv(w, e.splitAt, job);
    SpawnProveInv(w1, e.segments, e.proveAt, job);
    SpawnAggInv(w2, e.aggAt, job);
    SplitGrows(w, e.splitAt);
    ProveGrows(w1, e.segments, e.proveAt);
    AggGrows(w2, e.aggAt);
    SnarkGrows(w3, e.snarkAt);
  }

  lemma SplitGrows(w: Worker, now: nat)
    requires w.nextCall !in w.calls
    ensures CallsGrow(w, SpawnSplit(w, now))
  {
  }

  lemma ProveGrows(w: Worker, segments: set<nat>, now: nat)
    requires w.nextCall !in w.calls
    ensures CallsGrow(w, SpawnProve(w, segments, now))
  {
  }

  lemma AggGrows(w: Worker, now: nat)
    requires w.nextCall !in w.calls
    ensures CallsGrow(w, SpawnAgg(w, now))
  {
  }

  lemma SnarkGrows(w: Worker, now: nat)
    requires w.nextCall !in w.calls
    ensures CallsGrow(w, SpawnSnark(w, now))
  {
  }

  lemma ReceivedCalls(w: Worker, delivery: Option<Delivery>, now: nat)
    ensures Receive(w, delivery, now).calls == if delivery.Some? then w.calls - {delivery.value.call} else w.calls
  {
    if delivery.Some? && delivery.value.call !in w.calls {
      assert w.calls - {delivery.value.call} == w.calls;
    }
  }

  lemma FinishedCalls(w: Worker, e: Event)
    ensures Finish(w, e).calls == w.calls
  {
  }

  /** The call a turn receives, if any, is the only one that leaves. */
  lemma IterateCalls(w: Worker, e: Event)
    requires !w.finished
    ensures Iterate(w, e).calls ==
      if e.delivery.Some? then Spawn(w, e).calls - {e.delivery.value.call} else Spawn(w, e).calls
  {
    ReceivedCalls(Spawn(w, e), e.delivery, e.receiveAt);
    FinishedCalls(Receive(Spawn(w, e), e.delivery, e.receiveAt), e);
  }

  lemma {:induction false} HandOutCounts(s: System, e: Event, job: Job)
    requires SystemOk(s, job) && Enabled(job, s, HandOut(e))
    ensures CountOk(Next(s, HandOut(e)))
  {
    SpawnGrows(s.worker, e, job);
    SpawnPhase(s.worker, e);
    PhasesOfCounts(s.phases, Spawn(s.worker, e).calls);
  }

  lemma {:induction false} CountsKept(s: System, s1: System)
    requires CountOk(s) && Limit(s1) == Limit(s) && s1.count == s.count && s1.skips == s.skips
    requires s1.phases == PhasesOf(s.phases, s1.worker.calls)
    requires forall c :: c in s.phases && s.phases[c].Counted? ==> c in s1.worker.calls
    ensures CountOk(s1)
  {
    PhasesOfCounts(s.phases, s1.worker.calls);
  }

  lemma {:induction false} EndTurnCounts(s: System, e: Event, job: Job)
    requires SystemOk(s, job) && Enabled(job, s, EndTurn(e))
    ensures CountOk(Next(s, EndTurn(e)))
  {
    SpawnSame(s.half.value.top, s.half.value.event, e);
    IterateCalls(s.half.value.top, e);
    TurnGen(s, e, job);
    CountsKept(s, Next(s, EndTurn(e)));
  }

  lemma SpawnSame(w: Worker, e: Event, e1: Event)
    requires SameStart(e, e1)
    ensures Spawn(w, e1) == Spawn(w, e)
  {
  }

  lemma {:induction false} MoveKeeps(s: System, m: Move, job: Job)
    requires SystemOk(s, job) && Enabled(job, s, m)
    ensures SystemOk(Next(s, m), job)
  {
    match m
    case HandOut(e) =>
      HandOutCounts(s, e, job);
      SpawnInv(s.worker, e, job);
    case EndTurn(e) =>
      EndTurnCounts(s, e, job);
      IterateInv(s.half.value.top, e, job);
    case _ => CallMoveCounts(s, m, job);
  }

  lemma {:induction false} QuotaInv(q: QuotaRun, k: nat)
    requires IsQuotaRun(q) && k < |q.states|
    ensures SystemOk(q.states[k], q.job)
  {
    assert MovesOn(q, k);
    if k == 0 {
      StartInv(q.gen, q.job);
    } else {
      QuotaInv(q, k - 1);
      MoveKeeps(q.states[k - 1], q.moves[k - 1], q.job);
    }
  }

  lemma {:induction false} SameGen(q: QuotaRun, k: nat)
    requires IsQuotaRun(q) && 0 < k < |q.states|
    ensures q.states[k].worker.stage.gen == q.states[k - 1].worker.stage.gen
  {
    assert MovesOn(q, k);
    QuotaInv(q, k - 1);
    MoveGen(q.states[k - 1], q.moves[k - 1], q.job);
  }

  lemma {:induction false} MoveGen(s: System, m: Move, job: Job)
    requires LoopOk(s, job)
    ensures Next(s, m).worker.stage.gen == s.worker.stage.gen
  {
    if m.HandOut? {
      SpawnPhase(s.worker, m.event);
    } else if m.EndTurn? && s.half.Some? {
      TurnGen(s, m.event, job);
    }
  }

  lemma TurnGen(s: System, e: Event, job: Job)
    requires LoopOk(s, job) && s.half.Some?
    ensures Iterate(s.half.value.top, e).stage.gen == s.worker.stage.gen
  {
    SpawnPhase(s.half.value.top, s.half.value.event);
    IterateGen(s.half.value.top, e);
  }

  lemma {:induction false} QuotaGen(q: QuotaRun, k: nat)
    requires IsQuotaRun(q) && k < |q.states|
    ensures q.states[k].worker.stage.gen == q.gen && RequestOk(q.gen)
  {
    if k > 0 {
      QuotaGen(q, k - 1);
      SameGen(q, k);
    } else {
      assert MovesOn(q, 0);
    }
  }

  // The loop's own run

  ghost predicate EndsIn(h: History, job: Job, gen: GenerateTask, w: Worker) {
    IsRun(h) && h.job == job && h.gen == gen && h.states[|h.events|] == w
  }

  /** The state in which the loop began its present turn. */
  function Top(s: System): Worker {
    if s.half.Some? then s.half.value.top else s.worker
  }

  lemma {:induction false} FirstRun(job: Job, gen: GenerateTask)
    requires RequestOk(gen)
    ensures EndsIn(History(job, gen, [], [Start(gen)]), job, gen, Start(gen))
  {
    RunStarts(job, gen);
  }

  lemma {:induction false} LongerRun(h: History, job: Job, gen: GenerateTask, w: Worker, e: Event)
    requires EndsIn(h, job, gen, w) && EventOk(job, w.now, e)
    ensures EndsIn(h.(events := h.events + [e], states := h.states + [Iterate(w, e)]), job, gen, Iterate(w, e))
  {
    RunGoesOn(h, e);
  }

  /** Whatever its calls do, the loop makes one of the runs studied without a quota. */
  lemma {:induction false} LoopMakesRun(q: QuotaRun, k: nat)
    requires IsQuotaRun(q) && k < |q.states|
    ensures exists h :: EndsIn(h, q.job, q.gen, Top(q.states[k]))
  {
    assert MovesOn(q, k);
    if k == 0 {
      FirstRun(q.job, q.gen);
      assert Top(q.states[k]) == Start(q.gen);
    } else {
      LoopMakesRun(q, k - 1);
      var h :| EndsIn(h, q.job, q.gen, Top(q.states[k - 1]));
      if q.moves[k - 1].EndTurn? {
        LongerRun(h, q.job, q.gen, Top(q.states[k - 1]), q.moves[k - 1].event);
        assert Top(q.states[k]) == Iterate(Top(q.states[k - 1]), q.moves[k - 1].event);
      } else {
        assert EndsIn(h, q.job, q.gen, Top(q.states[k]));
      }
    }
  }

  // Refusals

  predicate IsCheck(m: Move, c: CallId) {
    m == FirstCheck(c) || (m.SecondCheck? && m.c == c)
  }

  /** A snark call is turned away exactly when, at one of its two checks, the admitted calls
      and the skips fill the quota. */
  lemma {:induction false} RefusedIffFull(q: QuotaRun, k: nat, c: CallId)
    requires IsQuotaRun(q) && k < |q.moves| && InPhase(q.states[k], c) && InPhase(q.states[k + 1], c)
    requires q.states[k].worker.calls[c].SnarkCall? && q.states[k].phases[c] != Over(Refused)
    ensures q.states[k + 1].phases[c] == Over(Refused) <==>
      IsCheck(q.moves[k], c) && |Admitted(q.states[k].phases)| + q.states[k].skips >= Limit(q.states[k])
  {
    assert MovesOn(q, k + 1);
    QuotaInv(q, k);
  }

  /** The snark task is in progress, and the only thing that can still come of it is the
      refusal of its call, or nothing. */
  ghost predicate Doomed(s: System) {
    && !s.worker.finished && s.worker.stage.step == StageSpec.Snark && s.worker.stage.snarkTask.state == Processing
    && forall c :: c in s.worker.calls && s.worker.calls[c].SnarkCall? ==>
         c in s.phases && s.phases[c] == Over(Refused)
  }

  /** A check of a snark call that finds the quota filled. */
  predicate SnarkTurnedAway(s: System, m: Move) {
    && (m.FirstCheck? || m.SecondCheck?) && m.c in s.worker.calls && s.worker.calls[m.c].SnarkCall?
    && |Admitted(s.phases)| + s.skips >= Limit(s)
  }

  lemma {:induction false} OneSnarkCall(s: StageState, calls: map<CallId, Task>, nextCall: CallId, c: CallId, d: CallId)
    requires CallsOk(s, calls, nextCall) && c in calls && d in calls && calls[c].SnarkCall? && calls[d].SnarkCall?
    ensures c == d
  {
    assert c != d ==> !SameTarget(calls[c], calls[d]);
  }

  lemma {:induction false} SnarkCallMeans(s: System, job: Job, c: CallId)
    requires LoopOk(s, job) && c in s.worker.calls && s.worker.calls[c].SnarkCall?
    ensures s.worker.stage.step == StageSpec.Snark && s.worker.stage.snarkTask.state == Processing
  {
    assert CallOk(s.worker.stage, s.worker.calls[c]);
  }

  // The kinds of moves

  ghost predicate CallMoves(q: QuotaRun, k: nat) {
    IsQuotaRun(q) && k < |q.moves| && !q.moves[k].HandOut? && !q.moves[k].EndTurn?
  }

  ghost predicate HandsOut(q: QuotaRun, k: nat) {
    IsQuotaRun(q) && k < |q.moves| && q.moves[k].HandOut?
  }

  ghost predicate EndsTurn(q: QuotaRun, k: nat) {
    IsQuotaRun(q) && k < |q.moves| && q.moves[k].EndTurn?
  }

  lemma {:induction false} OnlySnarkCall(s: System, job: Job, c: CallId)
    requires LoopOk(s, job) && c in s.worker.calls && s.worker.calls[c].SnarkCall?
    ensures forall d :: d in s.worker.calls && s.worker.calls[d].SnarkCall? ==> d == c
  {
    forall d | d in s.worker.calls && s.worker.calls[d].SnarkCall?
      ensures d == c
    {
      OneSnarkCall(s.worker.stage, s.worker.calls, s.worker.nextCall, c, d);
    }
  }

  /** A new phase of call c dooms the stage exactly if c is its snark call, now refused. */
  lemma {:induction false} PhaseDoom(s: System, s1: System, c: CallId, job: Job)
    requires LoopOk(s, job) && InPhase(s, c) && s1.worker == s.worker && !s.worker.finished
    requires c in s1.phases && s1.phases == s.phases[c := s1.phases[c]] && s.phases[c] != Over(Refused)
    ensures Doomed(s1) <==> Doomed(s) || (s.worker.calls[c].SnarkCall? && s1.phases[c] == Over(Refused))
  {
    if s.worker.calls[c].SnarkCall? {
      SnarkCallMeans(s, job, c);
      OnlySnarkCall(s, job, c);
    }
  }

  lemma {:induction false} CallMoveDoom(q: QuotaRun, k: nat)
    requires CallMoves(q, k) && !q.states[k].worker.finished
    ensures Doomed(q.states[k + 1]) <==> Doomed(q.states[k]) || SnarkTurnedAway(q.states[k], q.moves[k])
  {
    var s, s1, c := q.states[k], q.states[k + 1], q.moves[k].c;
    assert MovesOn(q, k + 1);
    QuotaInv(q, k);
    PhaseDoom(s, s1, c, q.job);
    if s.worker.calls[c].SnarkCall? {
      RefusedIffFull(q, k, c);
    }
  }

  lemma {:induction false} HandOutDoom(q: QuotaRun, k: nat)
    requires HandsOut(q, k)
    ensures Doomed(q.states[k + 1]) <==> Doomed(q.states[k])
  {
    var w, e := q.states[k].worker, q.moves[k].event;
    assert MovesOn(q, k + 1);
    QuotaInv(q, k);
    SpawnSnarkTask(w, e, q.job);
    SpawnGrows(w, e, q.job);
    SpawnPhase(w, e);
  }

  ghost predicate NewSnark(w: Worker, w1: Worker) {
    && w1.stage.snarkTask.state == Processing
    && exists c :: c in w1.calls && c !in w.calls && w1.calls[c].SnarkCall?
  }

  /** Handing out starts the snark task, with a new call, exactly if it was ready. */
  lemma {:induction false} SpawnSnarkTask(w: Worker, e: Event, job: Job)
    requires Inv(w, job)
    ensures var w1 := Spawn(w, e);
      if w.stage.step == StageSpec.Snark && Ready(w.stage.snarkTask.state) then NewSnark(w, w1) else NoNewSnark(w, w1)
  {
    if w.stage.step == StageSpec.Snark {
      SpawnInSnark(w, e);
      if Ready(w.stage.snarkTask.state) {
        assert w.nextCall in Spawn(w, e).calls && w.nextCall !in w.calls;
      }
    } else {
      SpawnOutsideSnark(w, e);
    }
  }

  lemma SpawnInSnark(w: Worker, e: Event)
    requires w.stage.step == StageSpec.Snark
    ensures Spawn(w, e) == SpawnSnark(w, e.snarkAt)
  {
  }

  ghost predicate NoNewSnark(w: Worker, w1: Worker) {
    && w1.stage.snarkTask == w.stage.snarkTask
    && forall c :: c in w1.calls && w1.calls[c].SnarkCall? ==> c in w.calls && w.calls[c].SnarkCall?
  }

  lemma SplitNoSnark(w: Worker, now: nat)
    ensures NoNewSnark(w, SpawnSplit(w, now))
  {
  }

  lemma ProveNoSnark(w: Worker, segments: set<nat>, now: nat)
    ensures NoNewSnark(w, SpawnProve(w, segments, now))
  {
  }

  lemma AggNoSnark(w: Worker, now: nat)
    ensures NoNewSnark(w, SpawnAgg(w, now))
  {
  }

  lemma SpawnOutsideSnark(w: Worker, e: Event)
    requires w.stage.step != StageSpec.Snark
    ensures NoNewSnark(w, Spawn(w, e))
  {
    var w1 := SpawnSplit(w, e.splitAt);
    var w2 := SpawnProve(w1, e.segments, e.proveAt);
    var w3 := SpawnAgg(w2, e.aggAt);
    SplitNoSnark(w, e.splitAt);
    ProveNoSnark(w1, e.segments, e.proveAt);
    AggNoSnark(w2, e.aggAt);
    SpawnSplitPhase(w, e.splitAt);
    SpawnProvePhase(w1, e.segments, e.proveAt);
    SpawnAggPhase(w2, e.aggAt);
  }

  lemma {:induction false} ProveAnswerAside(w: Worker, t: ProveTask, r: Reply, now: nat, job: Job)
    requires TasksOk(w.stage) && ProveCallOk(w.stage, t) && AllProved(w.stage)
    ensures OnProve(w.stage, ProveReply(t, r), now) == w.stage
  {
    UnlistedIdWaitsNowhere(w.stage, t.taskId);
  }

  lemma {:induction false} NoSplitCall(s: StageState)
    requires StepOk(s) && s.step == StageSpec.Snark
    ensures s.splitTask.state != Processing
  {
  }

  lemma {:induction false} SnarkProved(s: StageState)
    requires StepOk(s) && s.step == StageSpec.Snark
    ensures AllProved(s)
  {
  }

  /** In step Snark, only the answer to a snark call changes the stage. */
  lemma {:induction false} OtherAnswersAside(w: Worker, c: CallId, r: Reply, now: nat, job: Job)
    requires Inv(w, job) && w.stage.step == StageSpec.Snark && c in w.calls && !w.calls[c].SnarkCall?
    ensures Receive(w, Some(Delivery(c, r)), now).stage == w.stage
  {
    assert CallOk(w.stage, w.calls[c]);
    match w.calls[c]
    case ProveCall(t) =>
      SnarkProved(w.stage);
      ProveAnswerAside(w, t, r, now, job);
    case AggCall(t) => AggCallInProve(w.stage, t);
    case SplitCall(t) => NoSplitCall(w.stage);
  }

  /** The state in which a turn finishes, before it dispatches. */
  function Received(s: System, e: Event): Worker {
    Receive(s.worker, e.delivery, e.receiveAt)
  }

  lemma {:induction false} EndTurnIs(q: QuotaRun, k: nat)
    requires EndsTurn(q, k)
    ensures q.states[k + 1].worker == Finish(Received(q.states[k], q.moves[k].event), q.moves[k].event)
    ensures !q.states[k].worker.finished
  {
    var s, e := q.states[k], q.moves[k].event;
    assert MovesOn(q, k + 1);
    QuotaInv(q, k);
    SpawnSame(s.half.value.top, s.half.value.event, e);
    SpawnPhase(s.half.value.top, e);
  }

  /** The finished worker keeps the loop's invariant up to its dispatch. */
  lemma {:induction false} ReceivedOk(q: QuotaRun, k: nat)
    requires EndsTurn(q, k)
    ensures var w := Received(q.states[k], q.moves[k].event);
      Core(w.stage, w.calls, w.nextCall, q.job) && SamePhase(q.states[k].worker, w)
    ensures ListingFits(q.job, q.moves[k].event.listing)
  {
    var s, e := q.states[k], q.moves[k].event;
    assert MovesOn(q, k + 1);
    QuotaInv(q, k);
    ReceiveCore(s.worker, e, q.job);
    ReceivePhase(s.worker, e.delivery, e.receiveAt);
  }

  /** Which call, if any, leaves with the turn. */
  function Delivered(s: System, delivery: Option<Delivery>): Option<Task> {
    if delivery.Some? && delivery.value.call in s.worker.calls then Some(s.worker.calls[delivery.value.call]) else None
  }

  ghost predicate CallsLeft(s: System, s1: System, delivery: Option<Delivery>) {
    && s1.worker.calls == (if delivery.Some? then s.worker.calls - {delivery.value.call} else s.worker.calls)
    && forall c :: c in s1.worker.calls ==> c in s1.phases && c in s.phases && s1.phases[c] == s.phases[c]
  }

  lemma {:induction false} EndTurnCalls(q: QuotaRun, k: nat)
    requires EndsTurn(q, k)
    ensures CallsLeft(q.states[k], q.states[k + 1], q.moves[k].event.delivery)
    ensures DeliveryReady(q.states[k], q.moves[k].event.delivery)
  {
    var s, e := q.states[k], q.moves[k].event;
    assert MovesOn(q, k + 1);
    QuotaInv(q, k);
    EndTurnIs(q, k);
    ReceivedCalls(s.worker, e.delivery, e.receiveAt);
    FinishedCalls(Received(s, e), e);
  }

  /** A turn that begins outside step Snark cannot end with a snark task in progress. */
  lemma {:induction false} OutsideSnark(q: QuotaRun, k: nat)
    requires EndsTurn(q, k) && q.states[k].worker.stage.step != StageSpec.Snark
    ensures q.states[k + 1].worker.stage.snarkTask.state != Processing
  {
    var e := q.moves[k].event;
    var w := Received(q.states[k], e);
    EndTurnIs(q, k);
    ReceivedOk(q, k);
    if w.stage.step == Prove {
      SnarkTrace(w.stage, e.segmentsTxt, e.listing);
    }
  }

  lemma FinishInSnark(w: Worker, e: Event)
    requires w.stage.step == StageSpec.Snark
    ensures Finish(w, e).stage.snarkTask == w.stage.snarkTask
    ensures w.stage.snarkTask.state == Processing && !w.stage.isError ==> Finish(w, e) == w
  {
  }

  /** In step Snark, receiving nothing about the snark task leaves it as it is; and if it is
      in progress, the whole stage. */
  lemma {:induction false} NothingReceived(q: QuotaRun, k: nat)
    requires EndsTurn(q, k) && q.states[k].worker.stage.step == StageSpec.Snark
    requires var call := Delivered(q.states[k], q.moves[k].event.delivery); call.Some? ==> !call.value.SnarkCall?
    ensures q.states[k + 1].worker.stage.snarkTask == q.states[k].worker.stage.snarkTask
    ensures q.states[k].worker.stage.snarkTask.state == Processing ==>
      q.states[k + 1].worker.stage == q.states[k].worker.stage && !q.states[k + 1].worker.finished
  {
    var s, e := q.states[k], q.moves[k].event;
    EndTurnIs(q, k);
    ReceivedOk(q, k);
    QuotaInv(q, k);
    if e.delivery.Some? && e.delivery.value.call in s.worker.calls {
      OtherAnswersAside(s.worker, e.delivery.value.call, e.delivery.value.reply, e.receiveAt, q.job);
    }
    FinishInSnark(Received(s, e), e);
  }

  /** The snark task is over its call: refused, it stays in progress; otherwise not. */
  lemma {:induction false} SnarkTaken(w: Worker, c: CallId, r: Reply, now: nat)
    requires c in w.calls && w.calls[c].SnarkCall? && w.calls[c].snark.state == Processing
    requires w.stage.snarkTask.state == Processing
    ensures var s1 := Receive(w, Some(Delivery(c, r)), now).stage;
      if r.Refused? then s1 == w.stage.(snarkFile := s1.snarkFile) else s1.snarkTask.state != Processing
  {
  }

  ghost predicate SnarkReturns(q: QuotaRun, k: nat) {
    EndsTurn(q, k) &&
    var call := Delivered(q.states[k], q.moves[k].event.delivery); call.Some? && call.value.SnarkCall?
  }

  lemma {:induction false} SnarkReceived(q: QuotaRun, k: nat)
    requires SnarkReturns(q, k)
    ensures var w, w1 := q.states[k].worker, q.states[k + 1].worker;
      if q.moves[k].event.delivery.value.reply.Refused?
      then w1.stage.snarkTask == w.stage.snarkTask && w1.stage.step == w.stage.step && !w1.finished
      else w1.stage.snarkTask.state != Processing
  {
    var s, e := q.states[k], q.moves[k].event;
    QuotaInv(q, k);
    SnarkCallMeans(s, q.job, e.delivery.value.call);
    EndTurnIs(q, k);
    ReceivedOk(q, k);
    assert CallOk(s.worker.stage, s.worker.calls[e.delivery.value.call]);
    SnarkTaken(s.worker, e.delivery.value.call, e.delivery.value.reply, e.receiveAt);
    FinishInSnark(Received(s, e), e);
  }

  lemma {:induction false} SnarkAnswerDoom(q: QuotaRun, k: nat)
    requires SnarkReturns(q, k)
    ensures Doomed(q.states[k + 1]) <==> Doomed(q.states[k])
  {
    var c := q.moves[k].event.delivery.value.call;
    QuotaInv(q, k);
    SnarkReceived(q, k);
    SnarkCallMeans(q.states[k], q.job, c);
    EndTurnIs(q, k);
    EndTurnCalls(q, k);
    OnlySnarkCall(q.states[k], q.job, c);
  }

  /** The same stage and the same snark calls, in the same phases. */
  lemma {:induction false} SameDoom(s: System, s1: System, delivery: Option<Delivery>)
    requires s1.worker.stage == s.worker.stage && s1.worker.finished == s.worker.finished
    requires CallsLeft(s, s1, delivery) && s.phases.Keys == s.worker.calls.Keys
    requires Delivered(s, delivery).Some? ==> !Delivered(s, delivery).value.SnarkCall?
    ensures Doomed(s1) <==> Doomed(s)
  {
  }

  lemma {:induction false} EndTurnDoom(q: QuotaRun, k: nat)
    requires EndsTurn(q, k)
    ensures Doomed(q.states[k + 1]) <==> Doomed(q.states[k])
  {
    var s, delivery := q.states[k], q.moves[k].event.delivery;
    if s.worker.stage.step != StageSpec.Snark {
      OutsideSnark(q, k);
    } else if SnarkReturns(q, k) {
      SnarkAnswerDoom(q, k);
    } else {
      QuotaInv(q, k);
      EndTurnIs(q, k);
      EndTurnCalls(q, k);
      NothingReceived(q, k);
      if s.worker.stage.snarkTask.state == Processing {
        SameDoom(s, q.states[k + 1], delivery);
      }
    }
  }

  /** In every state a move dooms the stage exactly when it is a check of the snark call that
      finds the quota filled; and what is doomed stays so. */
  lemma {:induction false} DoomedIff(q: QuotaRun, k: nat)
    requires IsQuotaRun(q) && k < |q.moves| && !q.states[k].worker.finished
    ensures Doomed(q.states[k + 1]) <==> Doomed(q.states[k]) || SnarkTurnedAway(q.states[k], q.moves[k])
  {
    match q.moves[k]
    case HandOut(_) => HandOutDoom(q, k);
    case EndTurn(_) => EndTurnDoom(q, k);
    case _ => CallMoveDoom(q, k);
  }

  /** A doomed stage never ends. */
  lemma {:induction false} DoomedForever(q: QuotaRun, k: nat, m: nat)
    requires IsQuotaRun(q) && k <= m < |q.states| && Doomed(q.states[k])
    ensures Doomed(q.states[m]) && !q.states[m].worker.finished
    decreases m
  {
    if k < m {
      DoomedForever(q, k, m - 1);
      DoomedIff(q, m - 1);
    }
  }

  /** What has ended was not doomed, and does not become so. */
  lemma {:induction false} FinishedStays(q: QuotaRun, k: nat)
    requires IsQuotaRun(q) && k < |q.moves| && q.states[k].worker.finished
    ensures q.states[k + 1].worker.finished
  {
    assert MovesOn(q, k + 1);
    if q.moves[k].EndTurn? {
      EndTurnIs(q, k);
    }
  }
}
