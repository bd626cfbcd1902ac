/** Concrete moves of the loop and its calls: how a run under the quota starts, and how an
    attempt at a prove task goes, whether it is answered or skipped. */
module QuotaSchedules {
  import opened Tasks
  import opened ProverReplies
  import opened StageSpec
  import opened StageInvariant
  import opened WorkerSpec
  import opened WorkerInvariant
  import opened WorkerSchedules
  import opened QuotaSpec
  import opened QuotaInvariant

  ghost predicate FindsOnly(q: QuotaRun, files: set<nat>) {
    forall k :: 0 <= k < |q.moves| && q.moves[k].HandOut? ==> q.moves[k].event.segments <= files
  }

  ghost predicate RunTo(q: QuotaRun, files: set<nat>, gen: GenerateTask, s: System) {
    IsQuotaRun(q) && FindsOnly(q, files) && q.job == JOB && q.gen == gen && q.states[|q.moves|] == s
  }

  /** Some run of the request, in which none but these files are found, leads to this state. */
  ghost predicate Reached(files: set<nat>, gen: GenerateTask, s: System) {
    exists q :: RunTo(q, files, gen, s)
  }

  lemma {:induction false} ReachedBegin(files: set<nat>, gen: GenerateTask)
    requires RequestOk(gen)
    ensures Reached(files, gen, Begin(gen))
  {
    var q := QuotaRun(JOB, gen, [], [Begin(gen)]);
    assert MovesOn(q, 0);
    assert RunTo(q, files, gen, Begin(gen));
  }

  lemma {:induction false} ReachedNext(files: set<nat>, gen: GenerateTask, s: System, m: Move)
    requires Reached(files, gen, s) && Enabled(JOB, s, m) && (m.HandOut? ==> m.event.segments <= files)
    ensures Reached(files, gen, Next(s, m))
  {
    var q :| RunTo(q, files, gen, s);
    var q1 := q.(moves := q.moves + [m], states := q.states + [Next(s, m)]);
    forall k | 0 <= k < |q1.states|
      ensures MovesOn(q1, k)
    {
      assert k < |q.states| ==> MovesOn(q, k);
    }
    assert RunTo(q1, files, gen, Next(s, m));
  }

  lemma {:induction false} ReachedOk(files: set<nat>, gen: GenerateTask, s: System)
    requires Reached(files, gen, s)
    ensures SystemOk(s, JOB) && s.worker.stage.gen == gen && Limit(s) == gen.maxProverNum
  {
    var q :| RunTo(q, files, gen, s);
    QuotaInv(q, |q.moves|);
    QuotaGen(q, |q.moves|);
  }

  lemma {:induction false} ReachedLimit(files: set<nat>, gen: GenerateTask, s: System)
    requires Reached(files, gen, s)
    ensures s.worker.stage.gen == gen && Limit(s) == gen.maxProverNum && IdsOk(s.worker.stage)
  {
    ReachedOk(files, gen, s);
  }

  lemma {:induction false} HandOutReached(
    files: set<nat>, gen: GenerateTask, s: System, segments: set<nat>, w: Worker, phases: map<CallId, Phase>)
    requires Reached(files, gen, s) && s.half.None? && !s.worker.finished && s.worker.now == 0 && segments <= files
    requires Spawn(s.worker, Found(segments)) == w && PhasesOf(s.phases, w.calls) == phases
    ensures Reached(files, gen, s.(worker := w, phases := phases, half := Some(Half(s.worker, Found(segments)))))
  {
    EventsOk(segments, 0, Refused);
    ReachedNext(files, gen, s, HandOut(Found(segments)));
  }

  lemma {:induction false} EndTurnReached(
    files: set<nat>, gen: GenerateTask, s: System, segments: set<nat>, c: CallId, r: Reply, w: Worker,
    phases: map<CallId, Phase>)
    requires Reached(files, gen, s) && s.half.Some? && s.half.value.event == Found(segments) && s.half.value.top.now == 0
    requires c in s.phases && s.phases[c] == Over(r) && (r.Answer? && r.code.Ok? ==> r.totalSegments == 1)
    requires Iterate(s.half.value.top, Delivers(segments, c, r)) == w && PhasesOf(s.phases, w.calls) == phases
    ensures Reached(files, gen, s.(worker := w, phases := phases, half := None))
  {
    EventsOk(segments, c, r);
    ReachedNext(files, gen, s, EndTurn(Delivers(segments, c, r)));
  }

  /** A turn that leaves one call outstanding. */
  lemma {:induction false} OneCallLeft(
    files: set<nat>, gen: GenerateTask, s: System, segments: set<nat>, d: CallId, r: Reply, w: Worker, c: CallId)
    requires Reached(files, gen, s) && s.half.Some? && s.half.value.event == Found(segments) && s.half.value.top.now == 0
    requires d in s.phases && s.phases[d] == Over(r) && (r.Answer? && r.code.Ok? ==> r.totalSegments == 1)
    requires Iterate(s.half.value.top, Delivers(segments, d, r)) == w && w.calls.Keys == {c} && c in s.phases
    ensures Reached(files, gen, s.(worker := w, phases := map[c := s.phases[c]], half := None))
  {
    assert PhasesOf(s.phases, w.calls) == map[c := s.phases[c]];
    EndTurnReached(files, gen, s, segments, d, r, w, map[c := s.phases[c]]);
  }

  // While the split waits

  /** Between two turns, with nothing but the split's call, which has not begun. */
  ghost predicate Steady(s: System) {
    && s.half.None? && s.phases == map[0 := Waiting] && s.count == s.skips && Resting(s.worker.stage)
    && s.worker.nextCall >= 1
    && s.worker ==
       Worker(s.worker.stage, map[0 := SplitCall(s.worker.stage.splitTask)], s.worker.nextCall, 0, [], false)
  }

  function FirstSteady(gen: GenerateTask): System {
    System(FirstWorker(gen), map[0 := Waiting], 0, 0, None)
  }

  lemma {:induction false} FirstOut(files: set<nat>, gen: GenerateTask)
    requires Proves(gen)
    ensures Reached(files, gen, System(Spawn(Start(gen), IDLE), map[0 := Waiting], 0, 0, Some(Half(Start(gen), IDLE))))
  {
    StartSpawns(gen);
    ReachedBegin(files, gen);
    assert PhasesOf(map[], Spawn(Start(gen), IDLE).calls) == map[0 := Waiting];
    HandOutReached(files, gen, Begin(gen), {}, Spawn(Start(gen), IDLE), map[0 := Waiting]);
  }

  lemma {:induction false} FirstTurn(files: set<nat>, gen: GenerateTask)
    requires Proves(gen)
    ensures Reached(files, gen, FirstSteady(gen)) && Steady(FirstSteady(gen))
  {
    var s1 := System(Spawn(Start(gen), IDLE), map[0 := Waiting], 0, 0, Some(Half(Start(gen), IDLE)));
    FirstOut(files, gen);
    EventsOk({}, 0, Refused);
    ListedRests(gen);
    FinishLists(gen);
    ReachedNext(files, gen, s1, EndTurn(IDLE));
    assert PhasesOf(s1.phases, FirstWorker(gen).calls) == map[0 := Waiting];
    assert Next(s1, EndTurn(IDLE)) == FirstSteady(gen);
  }

  /** After the hand-out of prove task x. */
  function Out(s: System, x: nat): System
    requires x < |s.worker.stage.proveTasks|
  {
    s.(worker := Busied(s.worker, x), phases := s.phases[s.worker.nextCall := Waiting],
       half := Some(Half(s.worker, Found({x}))))
  }

  lemma {:induction false} OutReached(files: set<nat>, gen: GenerateTask, s: System, x: nat)
    requires Proves(gen) && Reached(files, gen, s) && Steady(s)
    requires x in files && x < PREALLOCATED && Ready(s.worker.stage.proveTasks[x].state)
    ensures Reached(files, gen, Out(s, x))
  {
    ReachedLimit(files, gen, s);
    SpawnOne(s.worker, x);
    assert PhasesOf(s.phases, Busied(s.worker, x).calls) == Out(s, x).phases;
    HandOutReached(files, gen, s, {x}, Busied(s.worker, x), Out(s, x).phases);
  }

  // One attempt at a prove task

  /** How an attempt on a node may end: with a skip, if the task failed on that node before,
      and with an answer otherwise. */
  predicate Ends(t: ProveTask, node: string, r: Reply, skip: bool) {
    && (if skip then t.trace.nodeInfo == node && r.Refused?
        else t.trace.nodeInfo != node && r.Answer? && ReplyFits(JOB, node, r))
    && node != "" && Accepted(ProveReply(t, r).state)
  }

  /** The call that Out has made, in the given phase. */
  function At(s: System, x: nat, p: Phase, extra: nat): System
    requires x < |s.worker.stage.proveTasks|
  {
    Out(s, x).(phases := Out(s, x).phases[s.worker.nextCall := p], count := s.count + extra)
  }

  /** A counted call steps to the next phase. */
  lemma {:induction false} CheckReached(files: set<nat>, gen: GenerateTask, s: System, c: CallId, m: Move, p: Phase)
    requires Reached(files, gen, s) && InPhase(s, c) && s.count < gen.maxProverNum
    requires || (m == FirstCheck(c) && s.phases[c].Waiting? && p == Looking)
             || (m.SecondCheck? && m.c == c && s.phases[c].Looking? && m.node != "" && p == Counted(m.node))
    ensures Reached(files, gen, s.(phases := s.phases[c := p], count := s.count + One(p.Counted?)))
  {
    ReachedLimit(files, gen, s);
    ReachedNext(files, gen, s, m);
    assert Next(s, m) == s.(phases := s.phases[c := p], count := s.count + One(p.Counted?));
  }

  lemma {:induction false} OutAdmitted(files: set<nat>, gen: GenerateTask, s: System, x: nat, node: string)
    requires Proves(gen) && Reached(files, gen, s) && Steady(s) && s.skips < gen.maxProverNum && node != ""
    requires x in files && x < PREALLOCATED && Ready(s.worker.stage.proveTasks[x].state)
    ensures Reached(files, gen, At(s, x, Counted(node), 1))
  {
    var c, s1, s2 := s.worker.nextCall, Out(s, x), At(s, x, Looking, 0);
    OutReached(files, gen, s, x);
    CheckReached(files, gen, s1, c, FirstCheck(c), Looking);
    assert s1.(phases := s1.phases[c := Looking], count := s1.count) == s2;
    CheckReached(files, gen, s2, c, SecondCheck(c, node), Counted(node));
    assert s2.phases[c := Counted(node)] == At(s, x, Counted(node), 1).phases;
  }

  function CallOver(s: System, x: nat, r: Reply, skip: bool): System
    requires x < |s.worker.stage.proveTasks|
  {
    At(s, x, Over(r), One(skip)).(skips := s.skips + One(skip))
  }

  lemma {:induction false} OutOver(files: set<nat>, gen: GenerateTask, s: System, x: nat, node: string, r: Reply, skip: bool)
    requires Proves(gen) && Reached(files, gen, s) && Steady(s) && s.skips < gen.maxProverNum
    requires x in files && x < PREALLOCATED && Ready(s.worker.stage.proveTasks[x].state)
    requires Ends(s.worker.stage.proveTasks[x], node, r, skip)
    ensures Reached(files, gen, CallOver(s, x, r, skip))
  {
    var c, s1 := s.worker.nextCall, At(s, x, Counted(node), 1);
    var m := if skip then SkipNode(c) else Respond(c, r);
    OutAdmitted(files, gen, s, x, node);
    ReachedNext(files, gen, s1, m);
    assert Next(s1, m).phases == CallOver(s, x, r, skip).phases;
    assert Next(s1, m) == CallOver(s, x, r, skip);
  }

  /** Between turns again, prove task x tried once more. */
  function Gone(s: System, x: nat, r: Reply, skip: bool): System
    requires x < |s.worker.stage.proveTasks|
  {
    s.(worker := s.worker.(stage := Tried(s.worker.stage, x, r), nextCall := s.worker.nextCall + 1),
       count := s.count + One(skip), skips := s.skips + One(skip))
  }

  lemma {:induction false} GoneSteady(s: System, x: nat, r: Reply, skip: bool)
    requires Steady(s) && x < PREALLOCATED && Resting(Tried(s.worker.stage, x, r))
    ensures Steady(Gone(s, x, r, skip))
  {
  }

  /** What Steady says outside the stage. */
  predicate OnlySplit(s: System) {
    && s.half.None? && s.phases == map[0 := Waiting] && s.worker.calls.Keys == {0}
    && s.worker.nextCall >= 1 && s.worker.now == 0
  }

  lemma {:induction false} TurnOver(
    files: set<nat>, gen: GenerateTask, s: System, x: nat, r: Reply, skip: bool, w: Worker)
    requires OnlySplit(s) && x < |s.worker.stage.proveTasks| && Reached(files, gen, CallOver(s, x, r, skip))
    requires r.Answer? && r.code.Ok? ==> r.totalSegments == 1
    requires Iterate(s.worker, Delivers({x}, s.worker.nextCall, r)) == w && w.calls.Keys == {0}
    ensures Reached(files, gen, System(w, map[0 := Waiting], s.count + One(skip), s.skips + One(skip), None))
  {
    OneCallLeft(files, gen, CallOver(s, x, r, skip), {x}, s.worker.nextCall, r, w, 0);
  }

  lemma {:induction false} GoneIs(s: System, x: nat, r: Reply, skip: bool, w: Worker)
    requires OnlySplit(s) && x < |s.worker.stage.proveTasks| && w == Gone(s, x, r, skip).worker
    ensures System(w, map[0 := Waiting], s.count + One(skip), s.skips + One(skip), None) == Gone(s, x, r, skip)
    ensures w.calls.Keys == {0}
  {
  }

  lemma {:induction false} AttemptReached(
    files: set<nat>, gen: GenerateTask, s: System, x: nat, r: Reply, skip: bool, w: Worker)
    requires OnlySplit(s) && x < |s.worker.stage.proveTasks| && Reached(files, gen, CallOver(s, x, r, skip))
    requires r.Answer? && r.code.Ok? ==> r.totalSegments == 1
    requires Iterate(s.worker, Delivers({x}, s.worker.nextCall, r)) == w && w == Gone(s, x, r, skip).worker
    ensures Reached(files, gen, Gone(s, x, r, skip))
  {
    GoneIs(s, x, r, skip, w);
    TurnOver(files, gen, s, x, r, skip, w);
  }

  lemma {:induction false} Attempt(files: set<nat>, gen: GenerateTask, s: System, x: nat, node: string, r: Reply, skip: bool)
    requires Proves(gen) && Reached(files, gen, s) && Steady(s) && s.skips < gen.maxProverNum
    requires x in files && x < PREALLOCATED && Ready(s.worker.stage.proveTasks[x].state)
    requires Ends(s.worker.stage.proveTasks[x], node, r, skip)
    requires ProveReply(s.worker.stage.proveTasks[x], r).state == Failed ==> s.worker.stage.proveTasks[x].failureCount < MAX_FAILURES
    ensures Reached(files, gen, Gone(s, x, r, skip)) && Steady(Gone(s, x, r, skip))
  {
    OutOver(files, gen, s, x, node, r, skip);
    ReachedLimit(files, gen, s);
    TriedTurn(s.worker, x, r);
    TriedRests(s.worker.stage, x, r);
    AttemptReached(files, gen, s, x, r, skip, Gone(s, x, r, skip).worker);
    GoneSteady(s, x, r, skip);
  }
}
