/** Which calls an iteration makes: exactly when there is room and work, about the first task
    that is ready, and with the time of the hand-out. */
module WorkerHandOuts {
  import opened Tasks
  import opened StageSpec
  import opened WorkerSpec
  import opened WorkerInvariant

  // Counting

  function Positions<T>(xs: seq<T>, p: T -> bool): set<nat> {
    set i: nat | i < |xs| && p(xs[i])
  }

  lemma {:induction false} CountIsSize<T>(xs: seq<T>, p: T -> bool)
    ensures CountWhere(xs, p) == |Positions(xs, p)|
  {
    if xs == [] {
      assert Positions(xs, p) == {};
    } else {
      var n := |xs| - 1;
      CountIsSize(xs[..n], p);
      CountWhereConcat(xs[..n], [xs[n]], p);
      assert xs == xs[..n] + [xs[n]] && [xs[n]][1..] == [];
      assert Positions(xs, p) == Positions(xs[..n], p) + (if p(xs[n]) then {n} else {});
      assert n !in Positions(xs[..n], p);
    }
  }

  /** The segments in progress, and those still to be done. */
  function Running(s: StageState): set<nat> {
    set i: nat | i < |s.proveTasks| && s.proveTasks[i].state == Processing
  }

  function Open(s: StageState): set<nat> {
    set i: nat | i < |s.proveTasks| && s.proveTasks[i].state != Success
  }

  lemma {:induction false} CountsAreSizes(s: StageState)
    ensures CountProcessing(s) == |Running(s)| && CountUnfinished(s) == |Open(s)|
  {
    CountIsSize(s.proveTasks, ProveIn(Processing));
    CountIsSize(s.proveTasks, ProveNotIn(Success));
    assert Running(s) == Positions(s.proveTasks, ProveIn(Processing));
    assert Open(s) == Positions(s.proveTasks, ProveNotIn(Success));
  }

  // What may be handed out

  /** A segment that waits or has failed, and whose file is found. */
  predicate ProveWaits(s: StageState, segments: set<nat>, i: nat) {
    && i < |s.proveTasks| && !s.proveTasks[i].isDeferred && s.proveTasks[i].fileNo in segments
    && (s.proveTasks[i].state == Unprocessed || s.proveTasks[i].state == Failed)
  }

  /** An aggregation that waits or has failed, and waits for nothing else. */
  predicate AggWaits(s: StageState, p: nat) {
    && p < |s.aggTasks| && (forall j :: 0 <= j < |s.aggTasks[p].childs| ==> s.aggTasks[p].childs[j] == None)
    && (s.aggTasks[p].state == Unprocessed || s.aggTasks[p].state == Failed)
  }

  ghost predicate ProveDue(s: StageState, segments: set<nat>) {
    s.step == Prove && |Running(s)| < s.gen.maxProverNum && exists i: nat :: ProveWaits(s, segments, i)
  }

  ghost predicate AggDue(s: StageState) {
    s.step == Prove && s.tasksGenDone && |Open(s)| < s.gen.maxProverNum && exists p: nat :: AggWaits(s, p)
  }

  predicate Waits(state: TaskState) {
    state == Unprocessed || state == Failed
  }

  function StartedAt(t: Trace, now: nat): Trace {
    Trace(now, t.finishTs, t.nodeInfo)
  }

  // One kind of call

  /** The worker after at most one more call. */
  ghost predicate Adds(w: Worker, w1: Worker, call: Option<Task>) {
    && w1.finished == w.finished && w1.saved == w.saved
    && w1.nextCall == w.nextCall + (if call.Some? then 1 else 0)
    && w1.calls == if call.Some? then w.calls[w.nextCall := call.value] else w.calls
  }

  /** The first ready segment is handed out: the only change. */
  ghost predicate ProveMade(w: Worker, w1: Worker, segments: set<nat>, i: nat, now: nat) {
    var s := w.stage;
    && ProveWaits(s, segments, i) && (forall j :: 0 <= j < i ==> !ProveWaits(s, segments, j))
    && var t := s.proveTasks[i].(state := Processing, trace := StartedAt(s.proveTasks[i].trace, now));
       w1.stage == s.(proveTasks := s.proveTasks[i := t]) && Adds(w, w1, Some(ProveCall(t)))
  }

  lemma {:induction false} SpawnProveMakes(w: Worker, segments: set<nat>, now: nat)
    ensures var w1 := SpawnProve(w, segments, now);
      if ProveDue(w.stage, segments) then exists i :: ProveMade(w, w1, segments, i, now)
      else w1.stage == w.stage && Adds(w, w1, None)
  {
    var s, i := w.stage, FirstWhere(w.stage.proveTasks, ReadyProve(segments));
    CountsAreSizes(s);
    assert forall j :: 0 <= j < |s.proveTasks| ==> (ProveWaits(s, segments, j) <==> ReadyProve(segments)(s.proveTasks[j]));
    if ProveDue(s, segments) {
      assert ProveMade(w, SpawnProve(w, segments, now), segments, i, now);
    }
  }

  ghost predicate AggMade(w: Worker, w1: Worker, p: nat, now: nat) {
    var s := w.stage;
    && AggWaits(s, p) && (forall q :: 0 <= q < p ==> !AggWaits(s, q))
    && var t := s.aggTasks[p].(state := Processing, trace := StartedAt(s.aggTasks[p].trace, now));
       && w1.stage == s.(aggTasks := s.aggTasks[p := t])
       && w.nextCall in w1.calls && w1.calls[w.nextCall].AggCall?
       && w1.calls[w.nextCall].agg == t.(inputs := w1.calls[w.nextCall].agg.inputs)
       && Adds(w, w1, Some(w1.calls[w.nextCall]))
  }

  lemma {:induction false} SpawnAggMakes(w: Worker, now: nat)
    ensures var w1 := SpawnAgg(w, now);
      if AggDue(w.stage) then exists p :: AggMade(w, w1, p, now)
      else w1.stage == w.stage && Adds(w, w1, None)
  {
    var s, p := w.stage, FirstWhere(w.stage.aggTasks, ReadyAgg());
    CountsAreSizes(s);
    assert forall q :: 0 <= q < |s.aggTasks| ==> (AggWaits(s, q) <==> ReadyAgg()(s.aggTasks[q]));
    if AggDue(s) {
      assert AggMade(w, SpawnAgg(w, now), p, now);
    }
  }

  ghost predicate SplitMade(w: Worker, w1: Worker, now: nat) {
    var t := w.stage.splitTask.(state := Processing, trace := StartedAt(w.stage.splitTask.trace, now));
    w1.stage == w.stage.(splitTask := t) && Adds(w, w1, Some(SplitCall(t)))
  }

  lemma SpawnSplitMakes(w: Worker, now: nat)
    ensures var w1 := SpawnSplit(w, now);
      if w.stage.step == Prove && Waits(w.stage.splitTask.state) then SplitMade(w, w1, now)
      else w1.stage == w.stage && Adds(w, w1, None)
  {
  }

  ghost predicate SnarkMade(w: Worker, w1: Worker, now: nat) {
    var t := w.stage.snarkTask.(state := Processing, trace := StartedAt(w.stage.snarkTask.trace, now));
    w1.stage == w.stage.(snarkTask := t) && Adds(w, w1, Some(SnarkCall(t)))
  }

  lemma SpawnSnarkMakes(w: Worker, now: nat)
    ensures var w1 := SpawnSnark(w, now);
      if w.stage.step == StageSpec.Snark && Waits(w.stage.snarkTask.state) then SnarkMade(w, w1, now)
      else w1.stage == w.stage && Adds(w, w1, None)
  {
  }

  // One iteration

  /** The calls of one kind that are new in w1. */
  function New(w: Worker, w1: Worker, kind: Task -> bool): map<CallId, Task> {
    map c | c in w1.calls && c !in w.calls && kind(w1.calls[c]) :: w1.calls[c]
  }

  const ABOUT_PROVE := (t: Task) => t.ProveCall?
  const ABOUT_AGG := (t: Task) => t.AggCall?
  const ABOUT_SPLIT := (t: Task) => t.SplitCall?
  const ABOUT_SNARK := (t: Task) => t.SnarkCall?

  /** The workers between the four hand-outs of an iteration. */
  datatype Between = Between(split: Worker, prove: Worker, agg: Worker)

  function BetweenOf(w: Worker, e: Event): Between {
    var w1 := SpawnSplit(w, e.splitAt);
    var w2 := SpawnProve(w1, e.segments, e.proveAt);
    Between(w1, w2, SpawnAgg(w2, e.aggAt))
  }

  ghost predicate FreshIds(w: Worker) {
    forall c :: c in w.calls ==> c < w.nextCall
  }

  /** What each of the four hand-outs adds, and that none takes a call away. */
  ghost predicate FourSteps(w: Worker, b: Between, w4: Worker, e: Event) {
    && (if w.stage.step == Prove && Waits(w.stage.splitTask.state) then SplitMade(w, b.split, e.splitAt)
        else b.split.stage == w.stage && Adds(w, b.split, None))
    && (if ProveDue(b.split.stage, e.segments) then exists i :: ProveMade(b.split, b.prove, e.segments, i, e.proveAt)
        else b.prove.stage == b.split.stage && Adds(b.split, b.prove, None))
    && (if AggDue(b.prove.stage) then exists p :: AggMade(b.prove, b.agg, p, e.aggAt)
        else b.agg.stage == b.prove.stage && Adds(b.prove, b.agg, None))
    && (if b.agg.stage.step == StageSpec.Snark && Waits(b.agg.stage.snarkTask.state) then SnarkMade(b.agg, w4, e.snarkAt)
        else w4.stage == b.agg.stage && Adds(b.agg, w4, None))
  }

  lemma {:induction false} SpawnSteps(w: Worker, e: Event)
    ensures FourSteps(w, BetweenOf(w, e), Spawn(w, e), e)
  {
    var b := BetweenOf(w, e);
    SpawnSplitMakes(w, e.splitAt);
    SpawnProveMakes(b.split, e.segments, e.proveAt);
    SpawnAggMakes(b.prove, e.aggAt);
    SpawnSnarkMakes(b.agg, e.snarkAt);
  }

  /** The four steps touch one list or task each. */
  lemma {:induction false} StagesBetween(w: Worker, e: Event)
    ensures var s, b, s4 := w.stage, BetweenOf(w, e), Spawn(w, e).stage;
      && b.split.stage == s.(splitTask := b.split.stage.splitTask)
      && b.prove.stage == b.split.stage.(proveTasks := b.prove.stage.proveTasks)
      && b.agg.stage == b.prove.stage.(aggTasks := b.agg.stage.aggTasks)
      && s4 == b.agg.stage.(snarkTask := s4.snarkTask)
  {
    SpawnSteps(w, e);
  }

  lemma {:induction false} SameProvesDue(s: StageState, s1: StageState, segments: set<nat>)
    requires s1 == s.(splitTask := s1.splitTask)
    ensures ProveDue(s1, segments) <==> ProveDue(s, segments)
  {
    assert Running(s1) == Running(s);
    assert forall i :: ProveWaits(s, segments, i) <==> ProveWaits(s1, segments, i);
  }

  /** Handing out a segment leaves it open. */
  lemma {:induction false} SameOpen(w: Worker, w1: Worker, segments: set<nat>, i: nat, now: nat)
    requires ProveMade(w, w1, segments, i, now)
    ensures Open(w1.stage) == Open(w.stage)
  {
  }

  lemma {:induction false} SameAggsDue(s: StageState, s1: StageState)
    requires s1 == s.(splitTask := s1.splitTask, proveTasks := s1.proveTasks) && Open(s1) == Open(s)
    ensures AggDue(s1) <==> AggDue(s)
  {
    assert forall p :: AggWaits(s, p) <==> AggWaits(s1, p);
  }

  lemma {:induction false} OpenBetween(w: Worker, e: Event)
    ensures Open(BetweenOf(w, e).prove.stage) == Open(w.stage)
  {
    var b := BetweenOf(w, e);
    StagesBetween(w, e);
    SpawnProveMakes(b.split, e.segments, e.proveAt);
    assert Open(b.split.stage) == Open(w.stage);
    if ProveDue(b.split.stage, e.segments) {
      var i :| ProveMade(b.split, b.prove, e.segments, i, e.proveAt);
      SameOpen(b.split, b.prove, e.segments, i, e.proveAt);
    }
  }

  ghost predicate Grows(w: Worker, w1: Worker) {
    forall c :: c in w.calls ==> c in w1.calls && w1.calls[c] == w.calls[c]
  }

  lemma NewTwo(w: Worker, w1: Worker, w2: Worker, kind: Task -> bool)
    requires Grows(w, w1) && Grows(w1, w2)
    ensures New(w, w2, kind) == New(w, w1, kind) + New(w1, w2, kind) && Grows(w, w2)
  {
  }

  lemma {:induction false} NewFour(w: Worker, b: Between, w4: Worker, kind: Task -> bool)
    requires Grows(w, b.split) && Grows(b.split, b.prove) && Grows(b.prove, b.agg) && Grows(b.agg, w4)
    ensures New(w, w4, kind) ==
      New(w, b.split, kind) + New(b.split, b.prove, kind) + New(b.prove, b.agg, kind) + New(b.agg, w4, kind)
  {
    NewTwo(w, b.split, b.prove, kind);
    NewTwo(w, b.prove, b.agg, kind);
    NewTwo(w, b.agg, w4, kind);
  }

  lemma StepNew(w: Worker, w1: Worker, call: Option<Task>, kind: Task -> bool)
    requires FreshIds(w) && Adds(w, w1, call)
    ensures New(w, w1, kind) == if call.Some? && kind(call.value) then map[w.nextCall := call.value] else map[]
    ensures FreshIds(w1) && Grows(w, w1)
  {
  }

  /** The call that a step adds, if any. */
  function Added(w: Worker, w1: Worker): Option<Task> {
    if w1.nextCall > w.nextCall && w.nextCall in w1.calls then Some(w1.calls[w.nextCall]) else None
  }

  /** A step adds one call of its kind, or none. */
  ghost predicate AddsKind(w: Worker, w1: Worker, kind: Task -> bool) {
    Adds(w, w1, Added(w, w1)) && (Added(w, w1).Some? ==> kind(Added(w, w1).value))
  }

  lemma {:induction false} StepsAddKinds(w: Worker, e: Event)
    ensures var b := BetweenOf(w, e);
      && AddsKind(w, b.split, ABOUT_SPLIT) && AddsKind(b.split, b.prove, ABOUT_PROVE)
      && AddsKind(b.prove, b.agg, ABOUT_AGG) && AddsKind(b.agg, Spawn(w, e), ABOUT_SNARK)
  {
    SpawnSteps(w, e);
  }

  /** Four steps that add one call of their kind each, if any. */
  ghost predicate FourKinds(w: Worker, b: Between, w4: Worker) {
    && FreshIds(w) && AddsKind(w, b.split, ABOUT_SPLIT) && AddsKind(b.split, b.prove, ABOUT_PROVE)
    && AddsKind(b.prove, b.agg, ABOUT_AGG) && AddsKind(b.agg, w4, ABOUT_SNARK)
  }

  lemma {:induction false} KindNew(w: Worker, b: Between, w4: Worker, kind: Task -> bool)
    requires FourKinds(w, b, w4)
    ensures FreshIds(b.split) && FreshIds(b.prove) && FreshIds(b.agg)
    ensures New(w, w4, kind) ==
      New(w, b.split, kind) + New(b.split, b.prove, kind) + New(b.prove, b.agg, kind) + New(b.agg, w4, kind)
  {
    StepNew(w, b.split, Added(w, b.split), kind);
    StepNew(b.split, b.prove, Added(b.split, b.prove), kind);
    StepNew(b.prove, b.agg, Added(b.prove, b.agg), kind);
    StepNew(b.agg, w4, Added(b.agg, w4), kind);
    NewFour(w, b, w4, kind);
  }

  lemma {:induction false} OtherKind(w: Worker, w1: Worker, kind: Task -> bool, other: Task -> bool)
    requires FreshIds(w) && AddsKind(w, w1, kind) && forall t :: kind(t) ==> !other(t)
    ensures New(w, w1, other) == map[]
  {
    StepNew(w, w1, Added(w, w1), other);
  }

  lemma {:induction false} NewSplits(w: Worker, b: Between, w4: Worker)
    requires FourKinds(w, b, w4)
    ensures New(w, w4, ABOUT_SPLIT) == New(w, b.split, ABOUT_SPLIT)
  {
    KindNew(w, b, w4, ABOUT_SPLIT);
    OtherKind(b.split, b.prove, ABOUT_PROVE, ABOUT_SPLIT);
    OtherKind(b.prove, b.agg, ABOUT_AGG, ABOUT_SPLIT);
    OtherKind(b.agg, w4, ABOUT_SNARK, ABOUT_SPLIT);
  }

  lemma {:induction false} NewProves(w: Worker, b: Between, w4: Worker)
    requires FourKinds(w, b, w4)
    ensures New(w, w4, ABOUT_PROVE) == New(b.split, b.prove, ABOUT_PROVE) && FreshIds(b.split)
  {
    KindNew(w, b, w4, ABOUT_PROVE);
    OtherKind(w, b.split, ABOUT_SPLIT, ABOUT_PROVE);
    OtherKind(b.prove, b.agg, ABOUT_AGG, ABOUT_PROVE);
    OtherKind(b.agg, w4, ABOUT_SNARK, ABOUT_PROVE);
  }

  lemma {:induction false} NewAggs(w: Worker, b: Between, w4: Worker)
    requires FourKinds(w, b, w4)
    ensures New(w, w4, ABOUT_AGG) == New(b.prove, b.agg, ABOUT_AGG) && FreshIds(b.prove)
  {
    KindNew(w, b, w4, ABOUT_AGG);
    OtherKind(w, b.split, ABOUT_SPLIT, ABOUT_AGG);
    OtherKind(b.split, b.prove, ABOUT_PROVE, ABOUT_AGG);
    OtherKind(b.agg, w4, ABOUT_SNARK, ABOUT_AGG);
  }

  lemma {:induction false} NewSnarks(w: Worker, b: Between, w4: Worker)
    requires FourKinds(w, b, w4)
    ensures New(w, w4, ABOUT_SNARK) == New(b.agg, w4, ABOUT_SNARK) && FreshIds(b.agg)
  {
    KindNew(w, b, w4, ABOUT_SNARK);
    OtherKind(w, b.split, ABOUT_SPLIT, ABOUT_SNARK);
    OtherKind(b.split, b.prove, ABOUT_PROVE, ABOUT_SNARK);
    OtherKind(b.prove, b.agg, ABOUT_AGG, ABOUT_SNARK);
  }

  // What every iteration hands out

  /** The iteration hands out segment i, the first that waits, with one new call. */
  ghost predicate CallsProve(w: Worker, w1: Worker, segments: set<nat>, now: nat, i: nat) {
    var s := w.stage;
    && ProveWaits(s, segments, i) && (forall j :: 0 <= j < i ==> !ProveWaits(s, segments, j))
    && var t := s.proveTasks[i].(state := Processing, trace := StartedAt(s.proveTasks[i].trace, now));
       && w1.stage.proveTasks == s.proveTasks[i := t]
       && exists c :: New(w, w1, ABOUT_PROVE) == map[c := ProveCall(t)]
  }

  /** The iteration hands out aggregation p, the first that waits, with one new call. */
  ghost predicate CallsAgg(w: Worker, w1: Worker, now: nat, p: nat) {
    var s := w.stage;
    && AggWaits(s, p) && (forall q :: 0 <= q < p ==> !AggWaits(s, q))
    && var t := s.aggTasks[p].(state := Processing, trace := StartedAt(s.aggTasks[p].trace, now));
       && w1.stage.aggTasks == s.aggTasks[p := t]
       && exists c, inputs :: New(w, w1, ABOUT_AGG) == map[c := AggCall(t.(inputs := inputs))]
  }

  lemma {:induction false} IterationKinds(h: History, k: nat)
    requires IsRun(h) && k < |h.events|
    ensures var w, e := h.states[k], h.events[k]; FourKinds(w, BetweenOf(w, e), Spawn(w, e))
  {
    RunInv(h, k);
    StepsAddKinds(h.states[k], h.events[k]);
  }

  lemma {:induction false} ProveMadeNew(w: Worker, b: Between, w4: Worker, segments: set<nat>, i: nat, now: nat)
    requires FourKinds(w, b, w4) && ProveMade(b.split, b.prove, segments, i, now)
    requires b.split.stage.proveTasks == w.stage.proveTasks && w4.stage.proveTasks == b.prove.stage.proveTasks
    ensures CallsProve(w, w4, segments, now, i)
  {
    var t := b.prove.stage.proveTasks[i];
    NewProves(w, b, w4);
    StepNew(b.split, b.prove, Some(ProveCall(t)), ABOUT_PROVE);
    assert forall j :: ProveWaits(b.split.stage, segments, j) <==> ProveWaits(w.stage, segments, j);
  }

  /** In every run, an iteration makes a prove call exactly when fewer than max_prover_num
      segments are in progress and one waits whose file is found; it is about the first. */
  lemma {:induction false} ProveCallMade(h: History, k: nat)
    requires IsRun(h) && k < |h.events|
    ensures var w, e := h.states[k], h.events[k];
      if ProveDue(w.stage, e.segments) then exists i :: CallsProve(w, Spawn(w, e), e.segments, e.proveAt, i)
      else New(w, Spawn(w, e), ABOUT_PROVE) == map[] && Spawn(w, e).stage.proveTasks == w.stage.proveTasks
  {
    var w, e := h.states[k], h.events[k];
    var b, w4 := BetweenOf(w, e), Spawn(w, e);
    IterationKinds(h, k);
    StagesBetween(w, e);
    SameProvesDue(w.stage, b.split.stage, e.segments);
    SpawnProveMakes(b.split, e.segments, e.proveAt);
    if ProveDue(w.stage, e.segments) {
      var i :| ProveMade(b.split, b.prove, e.segments, i, e.proveAt);
      ProveMadeNew(w, b, w4, e.segments, i, e.proveAt);
    } else {
      NewProves(w, b, w4);
      StepNew(b.split, b.prove, None, ABOUT_PROVE);
    }
  }

  lemma {:induction false} AggMadeNew(w: Worker, b: Between, w4: Worker, p: nat, now: nat)
    requires FourKinds(w, b, w4) && AggMade(b.prove, b.agg, p, now)
    requires b.prove.stage.aggTasks == w.stage.aggTasks && w4.stage.aggTasks == b.agg.stage.aggTasks
    ensures CallsAgg(w, w4, now, p)
  {
    var call := b.agg.calls[b.prove.nextCall];
    NewAggs(w, b, w4);
    StepNew(b.prove, b.agg, Some(call), ABOUT_AGG);
    assert forall q :: AggWaits(b.prove.stage, q) <==> AggWaits(w.stage, q);
    assert call == AggCall(b.agg.stage.aggTasks[p].(inputs := call.agg.inputs));
  }

  /** It makes an agg call exactly when the tree exists, fewer than max_prover_num segments are
      still to be done, and an aggregation waits for nothing but a prover. */
  lemma {:induction false} AggCallMade(h: History, k: nat)
    requires IsRun(h) && k < |h.events|
    ensures var w, e := h.states[k], h.events[k];
      if AggDue(w.stage) then exists p :: CallsAgg(w, Spawn(w, e), e.aggAt, p)
      else New(w, Spawn(w, e), ABOUT_AGG) == map[] && Spawn(w, e).stage.aggTasks == w.stage.aggTasks
  {
    var w, e := h.states[k], h.events[k];
    var b, w4 := BetweenOf(w, e), Spawn(w, e);
    IterationKinds(h, k);
    StagesBetween(w, e);
    OpenBetween(w, e);
    SameAggsDue(w.stage, b.prove.stage);
    SpawnAggMakes(b.prove, e.aggAt);
    if AggDue(w.stage) {
      var p :| AggMade(b.prove, b.agg, p, e.aggAt);
      AggMadeNew(w, b, w4, p, e.aggAt);
    } else {
      NewAggs(w, b, w4);
      StepNew(b.prove, b.agg, None, ABOUT_AGG);
    }
  }

  /** And it makes a call for the split or the snark task exactly when that step has been
      reached and the task waits. */
  lemma {:induction false} SplitSnarkCallMade(h: History, k: nat)
    requires IsRun(h) && k < |h.events|
    ensures var w, e := h.states[k], h.events[k];
      var t, t1 := w.stage.splitTask, Spawn(w, e).stage.splitTask;
      if w.stage.step == Prove && Waits(t.state)
      then t1 == t.(state := Processing, trace := StartedAt(t.trace, e.splitAt))
           && exists c :: New(w, Spawn(w, e), ABOUT_SPLIT) == map[c := SplitCall(t1)]
      else New(w, Spawn(w, e), ABOUT_SPLIT) == map[] && t1 == t
    ensures var w, e := h.states[k], h.events[k];
      var t, t1 := w.stage.snarkTask, Spawn(w, e).stage.snarkTask;
      if w.stage.step == StageSpec.Snark && Waits(t.state)
      then t1 == t.(state := Processing, trace := StartedAt(t.trace, e.snarkAt))
           && exists c :: New(w, Spawn(w, e), ABOUT_SNARK) == map[c := SnarkCall(t1)]
      else New(w, Spawn(w, e), ABOUT_SNARK) == map[] && t1 == t
  {
    var w, e := h.states[k], h.events[k];
    var b, w4 := BetweenOf(w, e), Spawn(w, e);
    IterationKinds(h, k);
    StagesBetween(w, e);
    SpawnSteps(w, e);
    NewSplits(w, b, w4);
    NewSnarks(w, b, w4);
    StepNew(w, b.split, Added(w, b.split), ABOUT_SPLIT);
    StepNew(b.agg, w4, Added(b.agg, w4), ABOUT_SNARK);
  }
}
