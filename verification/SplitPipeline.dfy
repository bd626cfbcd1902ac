/** The parallel splitter (prover_v2/src/executor.rs, split_with_context): a checkpoint
    generator, a bounded channel, and workers that trace in parallel but update the shared
    variables in turn.  One action is one step of one thread. */
module SplitPipeline {
  import opened Tasks
  import opened SplitFold

  // Where a worker stands.  Waiting: before wait_for_turn has returned; Turned: before the
  // lock on the public values; then the locks on the public values, the deferred events
  // and the segment index are taken one after the other and all held until Release.
  datatype Pc =
    | Idle
    | Receiving
    | Tracing(k: nat)
    | Waiting(k: nat)
    | Turned(k: nat)
    | Updated(k: nat, records: seq<Record>)
    | Deferred(k: nat, records: seq<Record>, late: seq<Record>)
    | Numbered(k: nat, base: nat, segments: seq<Segment>)
    | Writing(k: nat, base: nat, segments: seq<Segment>, pending: set<nat>)
    | Stopped

  // sent checkpoints have left the generator; takenBy (history) says who received which;
  // clobbered (history) says whether some file was ever written twice.
  datatype System = System(
    sent: nat, channel: seq<nat>, takenBy: seq<nat>, turn: nat, workers: seq<Pc>,
    receiver: Option<nat>, stateLock: Option<nat>, deferredLock: Option<nat>, indexLock: Option<nat>,
    publicValues: PublicValues, deferred: Events, segmentIndex: nat, segmentsTxt: Option<nat>,
    files: map<nat, Segment>, clobbered: bool)

  datatype Action =
    | Send
    | LockReceiver(w: nat)
    | Receive(w: nat)
    | Stop(w: nat)
    | TraceRecords(w: nat)
    | TakeTurn(w: nat)
    | UpdateCpu(w: nat)
    | UpdateLate(w: nat)
    | Number(w: nat)
    | Advance(w: nat)
    | Write(w: nat, j: nat)
    | Release(w: nat)

  function Init(input: Input, workers: nat): System {
    System(
      0, [], [], 0, seq(workers, _ => Idle), None, None, None, None,
      input.initial, [], 0, None, map[], false)
  }

  predicate Enabled(input: Input, s: System, a: Action) {
    if a.Send? then s.sent < |input.checkpoints| && |s.channel| < input.capacity
    else a.w < |s.workers| && CanStep(input, s, a, s.workers[a.w])
  }

  predicate CanStep(input: Input, s: System, a: Action, pc: Pc) {
    match a
    case Send => false
    case LockReceiver(_) => pc.Idle? && s.receiver.None?
    case Receive(_) => pc.Receiving? && s.channel != []
    case Stop(_) => pc.Receiving? && s.channel == [] && s.sent == |input.checkpoints|
    case TraceRecords(_) => pc.Tracing?
    case TakeTurn(_) => pc.Waiting? && s.turn == pc.k
    case UpdateCpu(_) => pc.Turned? && s.stateLock.None?
    case UpdateLate(_) => pc.Updated? && s.deferredLock.None?
    case Number(_) => pc.Deferred? && s.indexLock.None?
    case Advance(_) => pc.Numbered?
    case Write(_, j) => pc.Writing? && j in pc.pending
    case Release(_) => pc.Writing? && pc.pending == {}
  }

  function Positions(n: nat): (xs: set<nat>)
    ensures |xs| == n && forall x: nat :: x in xs <==> x < n
  {
    if n == 0 then {} else Positions(n - 1) + {n - 1}
  }

  function RecordsOf(input: Input, k: nat): seq<Record> {
    if k < |input.checkpoints| then input.checkpoints[k] else []
  }

  function SegmentsOf(k: nat, records: seq<Record>, late: seq<Record>): seq<Segment> {
    if records == [] then [] else Segments(k, records, late)
  }

  function Next(input: Input, s: System, a: Action): System
    requires InputOk(input) && Enabled(input, s, a)
  {
    if a.Send? then s.(sent := s.sent + 1, channel := s.channel + [s.sent])
    else
      var pc := s.workers[a.w];
      match a
      case LockReceiver(w) => s.(workers := s.workers[w := Receiving], receiver := Some(w))
      case Receive(w) => s.(
        workers := s.workers[w := Tracing(s.channel[0])], receiver := None,
        channel := s.channel[1..], takenBy := s.takenBy + [w])
      case Stop(w) => s.(workers := s.workers[w := Stopped], receiver := None)
      case TraceRecords(w) => s.(workers := s.workers[w := Waiting(pc.k)])
      case TakeTurn(w) => s.(workers := s.workers[w := Turned(pc.k)])
      case UpdateCpu(w) =>
        var (pv, records) := CpuPass(s.publicValues, RecordsOf(input, pc.k));
        s.(workers := s.workers[w := Updated(pc.k, records)], stateLock := Some(w), publicValues := pv)
      case UpdateLate(w) =>
        var out := DeferAndSplit(input.machine, s.publicValues, s.deferred, pc.records, Done(input, pc.k));
        s.(workers := s.workers[w := Deferred(pc.k, out.records, out.late)], deferredLock := Some(w),
           publicValues := out.publicValues, deferred := out.deferred)
      case Number(w) =>
        var index := s.segmentIndex + |pc.records| + |pc.late|;
        s.(workers := s.workers[w := Numbered(pc.k, s.segmentIndex, SegmentsOf(pc.k, pc.records, pc.late))],
           indexLock := Some(w), segmentIndex := index, segmentsTxt := Some(index))
      case Advance(w) =>
        s.(workers := s.workers[w := Writing(pc.k, pc.base, pc.segments, Positions(|pc.segments|))], turn := s.turn + 1)
      case Write(w, j) =>
        if j >= |pc.segments| then s
        else s.(
          workers := s.workers[w := pc.(pending := pc.pending - {j})],
          files := s.files[pc.base + j := pc.segments[j]],
          clobbered := s.clobbered || pc.base + j in s.files)
      case Release(w) =>
        s.(workers := s.workers[w := Idle], stateLock := None, deferredLock := None, indexLock := None)
  }

  /** The state after the scheduler has tried the given actions; one that is not enabled
      makes its thread wait, and nothing happens. */
  function After(input: Input, workers: nat, schedule: seq<Action>): System
    requires InputOk(input)
  {
    if schedule == [] then Init(input, workers)
    else
      var s, a := After(input, workers, schedule[..|schedule| - 1]), schedule[|schedule| - 1];
      if Enabled(input, s, a) then Next(input, s, a) else s
  }

  // What every step keeps

  /** The checkpoint a worker is busy with. */
  function Busy(pc: Pc): Option<nat> {
    if pc.Idle? || pc.Receiving? || pc.Stopped? then None else Some(pc.k)
  }

  predicate BeforeAdvance(pc: Pc) {
    pc.Tracing? || pc.Waiting? || InTurn(pc)
  }

  predicate InTurn(pc: Pc) {
    pc.Turned? || pc.Updated? || pc.Deferred? || pc.Numbered?
  }

  predicate HoldsState(pc: Pc) {
    pc.Updated? || HoldsDeferred(pc)
  }

  predicate HoldsDeferred(pc: Pc) {
    pc.Deferred? || HoldsIndex(pc)
  }

  predicate HoldsIndex(pc: Pc) {
    pc.Numbered? || pc.Writing?
  }

  /** Checkpoints are sent, and received, in order. */
  ghost predicate Flow(input: Input, s: System) {
    && s.sent <= |input.checkpoints| && |s.channel| <= input.capacity
    && |s.takenBy| + |s.channel| == s.sent && s.turn <= |s.takenBy|
    && (forall k :: 0 <= k < |s.channel| ==> s.channel[k] == |s.takenBy| + k)
  }

  ghost predicate LocksOk(s: System, w: nat)
    requires w < |s.workers|
  {
    var pc := s.workers[w];
    && (pc.Receiving? <==> s.receiver == Some(w))
    && (HoldsState(pc) <==> s.stateLock == Some(w))
    && (HoldsDeferred(pc) <==> s.deferredLock == Some(w))
    && (HoldsIndex(pc) <==> s.indexLock == Some(w))
  }

  ghost predicate TurnOk(input: Input, s: System, w: nat)
    requires w < |s.workers|
  {
    var pc := s.workers[w];
    && (Busy(pc).Some? ==> pc.k < |s.takenBy| && s.takenBy[pc.k] == w)
    && (BeforeAdvance(pc) ==> s.turn <= pc.k)
    && (InTurn(pc) ==> pc.k == s.turn)
    && (pc.Writing? ==> pc.k + 1 == s.turn)
    && (pc.Stopped? ==> s.sent == |input.checkpoints| && s.channel == [])
  }

  ghost predicate WorkersOk(input: Input, s: System) {
    forall w :: 0 <= w < |s.workers| ==> LocksOk(s, w) && TurnOk(input, s, w)
  }

  /** Checkpoint k has been received and its update is still to come. */
  ghost predicate InHand(s: System, k: nat) {
    && k < |s.takenBy| && s.takenBy[k] < |s.workers|
    && BeforeAdvance(s.workers[s.takenBy[k]]) && s.workers[s.takenBy[k]].k == k
  }

  ghost predicate HandsOk(s: System) {
    forall k :: s.turn <= k < |s.takenBy| ==> InHand(s, k)
  }

  ghost predicate Structure(input: Input, s: System) {
    && Flow(input, s) && WorkersOk(input, s) && HandsOk(s)
    && (s.stateLock.Some? ==> s.stateLock.value < |s.workers|)
    && (s.deferredLock.Some? ==> s.deferredLock.value < |s.workers|)
    && (s.indexLock.Some? ==> s.indexLock.value < |s.workers|)
    && (s.receiver.Some? ==> s.receiver.value < |s.workers|)
  }

  /** The segments of one checkpoint, numbered. */
  predicate SameSegments(pc: Pc, pc1: Pc) {
    HoldsIndex(pc) && HoldsIndex(pc1) && pc1.k == pc.k && pc1.base == pc.base && pc1.segments == pc.segments
  }

  /** How a step moves the program counter of its worker; first is the head of the channel. */
  ghost predicate PcMoves(a: Action, pc: Pc, pc1: Pc, first: nat) {
    match a
    case Send => false
    case LockReceiver(_) => pc1 == Receiving
    case Receive(_) => pc1 == Tracing(first)
    case Stop(_) => pc1 == Stopped
    case TraceRecords(_) => pc1.Waiting? && Busy(pc1) == Busy(pc)
    case TakeTurn(_) => pc1.Turned? && Busy(pc1) == Busy(pc)
    case UpdateCpu(_) => pc1.Updated? && Busy(pc1) == Busy(pc)
    case UpdateLate(_) => pc1.Deferred? && Busy(pc1) == Busy(pc)
    case Number(_) => pc1.Numbered? && Busy(pc1) == Busy(pc)
    case Advance(_) => pc1.Writing? && SameSegments(pc, pc1)
    case Write(_, _) => pc1.Writing? && SameSegments(pc, pc1)
    case Release(_) => pc1 == Idle
  }

  ghost predicate LocksMove(a: Action, s: System, s1: System) {
    && s1.receiver == (if a.LockReceiver? then Some(a.w) else if a.Receive? || a.Stop? then None else s.receiver)
    && s1.stateLock == (if a.UpdateCpu? then Some(a.w) else if a.Release? then None else s.stateLock)
    && s1.deferredLock == (if a.UpdateLate? then Some(a.w) else if a.Release? then None else s.deferredLock)
    && s1.indexLock == (if a.Number? then Some(a.w) else if a.Release? then None else s.indexLock)
  }

  /** What a step does to everything but the data: the channel, the turn, the locks and the
      program counters. */
  ghost predicate Control(input: Input, s: System, a: Action, s1: System) {
    && Enabled(input, s, a) && LocksMove(a, s, s1)
    && s1.turn == (if a.Advance? then s.turn + 1 else s.turn)
    && if a.Send? then
         && s1.sent == s.sent + 1 && s1.channel == s.channel + [s.sent]
         && s1.takenBy == s.takenBy && s1.workers == s.workers
       else
         && s1.sent == s.sent && s1.channel == (if a.Receive? then s.channel[1..] else s.channel)
         && s1.takenBy == (if a.Receive? then s.takenBy + [a.w] else s.takenBy)
         && |s1.workers| == |s.workers| && s1.workers == s.workers[a.w := s1.workers[a.w]]
         && PcMoves(a, s.workers[a.w], s1.workers[a.w], if a.Receive? then s.channel[0] else 0)
  }

  lemma NextControl(input: Input, s: System, a: Action)
    requires InputOk(input) && Enabled(input, s, a)
    ensures Control(input, s, a, Next(input, s, a))
  {
  }

  lemma {:induction false} StepFlow(input: Input, s: System, a: Action, s1: System)
    requires Flow(input, s) && Control(input, s, a, s1) && (a.Send? || TurnOk(input, s, a.w))
    ensures Flow(input, s1)
  {
  }

  lemma {:induction false} StepLocks(input: Input, s: System, a: Action, s1: System, w: nat)
    requires Control(input, s, a, s1) && w < |s.workers|
    requires LocksOk(s, w) && (a.Send? || LocksOk(s, a.w))
    ensures |s1.workers| == |s.workers| && LocksOk(s1, w)
  {
  }

  lemma {:induction false} OwnTurn(input: Input, s: System, a: Action, s1: System)
    requires Flow(input, s) && Control(input, s, a, s1) && !a.Send? && TurnOk(input, s, a.w)
    ensures TurnOk(input, s1, a.w)
  {
  }

  lemma {:induction false} OtherTurn(input: Input, s: System, a: Action, s1: System, w: nat)
    requires Flow(input, s) && Control(input, s, a, s1) && w < |s.workers|
    requires LocksOk(s, w) && TurnOk(input, s, w)
    requires a.Send? || (a.w != w && LocksOk(s, a.w) && TurnOk(input, s, a.w))
    ensures TurnOk(input, s1, w)
  {
  }

  /** Every worker stays in order. */
  lemma {:induction false} StepWorker(input: Input, s: System, a: Action, s1: System, w: nat)
    requires Flow(input, s) && WorkersOk(input, s) && Control(input, s, a, s1) && w < |s.workers|
    ensures |s1.workers| == |s.workers| && LocksOk(s1, w) && TurnOk(input, s1, w)
  {
    assert LocksOk(s, w) && TurnOk(input, s, w);
    if !a.Send? {
      assert LocksOk(s, a.w) && TurnOk(input, s, a.w);
    }
    StepLocks(input, s, a, s1, w);
    if !a.Send? && a.w == w {
      OwnTurn(input, s, a, s1);
    } else {
      OtherTurn(input, s, a, s1, w);
    }
  }

  lemma {:induction false} StepHands(input: Input, s: System, a: Action, s1: System, k: nat)
    requires Flow(input, s) && Control(input, s, a, s1) && (a.Send? || TurnOk(input, s, a.w))
    requires s1.turn <= k < |s1.takenBy| && (k < |s.takenBy| ==> InHand(s, k))
    ensures InHand(s1, k)
  {
  }

  lemma {:induction false} StepStructure(input: Input, s: System, a: Action, s1: System)
    requires Structure(input, s) && Control(input, s, a, s1)
    ensures Structure(input, s1) && |s1.workers| == |s.workers|
  {
    if !a.Send? {
      assert LocksOk(s, a.w) && TurnOk(input, s, a.w);
    }
    StepFlow(input, s, a, s1);
    forall w | 0 <= w < |s.workers|
      ensures LocksOk(s1, w) && TurnOk(input, s1, w)
    {
      StepWorker(input, s, a, s1, w);
    }
    forall k | s1.turn <= k < |s1.takenBy|
      ensures InHand(s1, k)
    {
      assert k < |s.takenBy| ==> InHand(s, k);
      StepHands(input, s, a, s1, k);
    }
  }

  // Refinement of the sequential run

  ghost predicate SharedIs(s: System, f: Shared) {
    s.publicValues == f.publicValues && s.deferred == f.deferred && s.segmentIndex == f.segmentIndex
  }

  /** Checkpoint k's records after the first loop of its update, in the sequential run. */
  function CpuOut(input: Input, k: nat): (PublicValues, seq<Record>)
    requires InputOk(input) && k < |input.checkpoints|
  {
    CpuPass(Fold(input, k).publicValues, input.checkpoints[k])
  }

  /** What checkpoint k's update has made once the deferred events are split. */
  function LateOutAt(input: Input, k: nat): LateOut
    requires InputOk(input) && k < |input.checkpoints|
  {
    DeferAndSplit(input.machine, CpuOut(input, k).0, Fold(input, k).deferred, CpuOut(input, k).1, Done(input, k))
  }

  /** The shared variables while a worker is in the middle of checkpoint k's update. */
  ghost predicate MidUpdate(input: Input, s: System, pc: Pc)
    requires InputOk(input)
  {
    Busy(pc).Some? && pc.k < |input.checkpoints| &&
    match pc
    case Updated(k, records) =>
      && (s.publicValues, records) == CpuOut(input, k)
      && s.deferred == Fold(input, k).deferred && s.segmentIndex == Fold(input, k).segmentIndex
    case Deferred(k, records, late) =>
      && LateOut(s.publicValues, s.deferred, records, late) == LateOutAt(input, k)
      && s.segmentIndex == Fold(input, k).segmentIndex
    case Numbered(k, base, segments) => AfterUpdate(input, s, k, base, segments)
    case Writing(k, base, segments, _) => AfterUpdate(input, s, k, base, segments)
    case _ => false
  }

  ghost predicate AfterUpdate(input: Input, s: System, k: nat, base: nat, segments: seq<Segment>)
    requires InputOk(input)
  {
    && k < |input.checkpoints| && base == Out(input, k).base && segments == Out(input, k).segments
    && SharedIs(s, Out(input, k).shared)
  }

  ghost predicate SharedOk(input: Input, s: System)
    requires InputOk(input)
  {
    if s.stateLock.None? then s.turn <= |input.checkpoints| && SharedIs(s, Fold(input, s.turn))
    else s.stateLock.value < |s.workers| && MidUpdate(input, s, s.workers[s.stateLock.value])
  }

  lemma FoldNext(input: Input, k: nat)
    requires InputOk(input) && k < |input.checkpoints|
    ensures Fold(input, k + 1) == Out(input, k).shared
  {
  }

  /** The two updates compute from the shared variables what the sequential run does. */
  lemma UpdateCpuStep(input: Input, s: System, a: Action)
    requires InputOk(input) && a.UpdateCpu? && Enabled(input, s, a)
    ensures var pc, s1 := s.workers[a.w], Next(input, s, a);
      && |s1.workers| == |s.workers| && s1.workers[a.w].Updated? && s1.workers[a.w].k == pc.k
      && (s1.publicValues, s1.workers[a.w].records) == CpuPass(s.publicValues, RecordsOf(input, pc.k))
      && s1.deferred == s.deferred && s1.segmentIndex == s.segmentIndex && s1.stateLock == Some(a.w)
  {
  }

  lemma {:induction false} UpdateCpuShared(input: Input, s: System, a: Action)
    requires InputOk(input) && a.UpdateCpu? && Enabled(input, s, a)
    requires Flow(input, s) && TurnOk(input, s, a.w) && SharedOk(input, s)
    ensures SharedOk(input, Next(input, s, a))
  {
    UpdateCpuStep(input, s, a);
  }

  lemma UpdateLateStep(input: Input, s: System, a: Action)
    requires InputOk(input) && a.UpdateLate? && Enabled(input, s, a)
    ensures var pc, s1 := s.workers[a.w], Next(input, s, a);
      && |s1.workers| == |s.workers| && s1.workers[a.w].Deferred? && s1.workers[a.w].k == pc.k
      && LateOut(s1.publicValues, s1.deferred, s1.workers[a.w].records, s1.workers[a.w].late)
           == DeferAndSplit(input.machine, s.publicValues, s.deferred, pc.records, Done(input, pc.k))
      && s1.segmentIndex == s.segmentIndex && s1.stateLock == s.stateLock
  {
  }

  lemma {:induction false} UpdateLateShared(input: Input, s: System, a: Action)
    requires InputOk(input) && a.UpdateLate? && Enabled(input, s, a) && LocksOk(s, a.w) && SharedOk(input, s)
    ensures SharedOk(input, Next(input, s, a))
  {
    UpdateLateStep(input, s, a);
    LateFits(input, s, s.workers[a.w], Next(input, s, a), Next(input, s, a).workers[a.w]);
  }

  lemma LateFits(input: Input, s: System, pc: Pc, s1: System, pc1: Pc)
    requires InputOk(input) && pc.Updated? && MidUpdate(input, s, pc) && pc1.Deferred? && pc1.k == pc.k
    requires LateOut(s1.publicValues, s1.deferred, pc1.records, pc1.late)
      == DeferAndSplit(input.machine, s.publicValues, s.deferred, pc.records, Done(input, pc.k))
    requires s1.segmentIndex == s.segmentIndex
    ensures MidUpdate(input, s1, pc1)
  {
  }

  /** The halves of the update make the whole. */
  lemma UpdateComplete(input: Input, k: nat)
    requires InputOk(input) && k < |input.checkpoints|
    ensures var before, out, o := Fold(input, k), LateOutAt(input, k), Out(input, k);
      && o.base == before.segmentIndex && o.segments == SegmentsOf(k, out.records, out.late)
      && o.shared == Shared(out.publicValues, out.deferred, before.segmentIndex + |out.records| + |out.late|)
  {
  }

  lemma NumberedFits(input: Input, s: System, pc: Pc, s1: System)
    requires InputOk(input) && pc.Deferred? && MidUpdate(input, s, pc)
    requires s1.publicValues == s.publicValues && s1.deferred == s.deferred
    requires s1.segmentIndex == s.segmentIndex + |pc.records| + |pc.late|
    ensures MidUpdate(input, s1, Numbered(pc.k, s.segmentIndex, SegmentsOf(pc.k, pc.records, pc.late)))
  {
    UpdateComplete(input, pc.k);
  }

  lemma NumberStep(input: Input, s: System, a: Action)
    requires InputOk(input) && a.Number? && Enabled(input, s, a) && s.stateLock == Some(a.w)
    ensures var pc, s1 := s.workers[a.w], Next(input, s, a);
      && s1.publicValues == s.publicValues && s1.deferred == s.deferred && s1.stateLock == s.stateLock
      && s1.segmentIndex == s.segmentIndex + |pc.records| + |pc.late|
      && s1.workers == s.workers[a.w := Numbered(pc.k, s.segmentIndex, SegmentsOf(pc.k, pc.records, pc.late))]
  {
  }

  lemma {:induction false} NumberShared(input: Input, s: System, a: Action)
    requires InputOk(input) && a.Number? && Enabled(input, s, a) && LocksOk(s, a.w) && SharedOk(input, s)
    ensures SharedOk(input, Next(input, s, a))
  {
    NumberStep(input, s, a);
    NumberedFits(input, s, s.workers[a.w], Next(input, s, a));
  }

  /** The same shared variables in the middle of the same update, or between updates. */
  ghost predicate SameUpdate(s: System, s1: System) {
    && s1.publicValues == s.publicValues && s1.deferred == s.deferred && s1.segmentIndex == s.segmentIndex
    && s1.stateLock == s.stateLock && |s1.workers| == |s.workers|
    && (s.stateLock.None? ==> s1.turn == s.turn)
    && (s.stateLock.Some? && s.stateLock.value < |s.workers| ==>
         var pc, pc1 := s.workers[s.stateLock.value], s1.workers[s.stateLock.value];
         pc1 == pc || SameSegments(pc, pc1))
  }

  lemma SharedStays(input: Input, s: System, s1: System)
    requires InputOk(input) && SharedOk(input, s) && SameUpdate(s, s1)
    ensures SharedOk(input, s1)
  {
  }

  lemma NextKeepsData(input: Input, s: System, a: Action)
    requires InputOk(input) && Enabled(input, s, a)
    ensures var s1 := Next(input, s, a);
      && (!a.UpdateCpu? && !a.UpdateLate? && !a.Number? ==>
           s1.publicValues == s.publicValues && s1.deferred == s.deferred && s1.segmentIndex == s.segmentIndex)
      && (!a.Write? ==> s1.files == s.files && s1.clobbered == s.clobbered)
  {
  }

  lemma {:induction false} ControlSameUpdate(input: Input, s: System, a: Action, s1: System)
    requires Control(input, s, a, s1) && (a.Send? || LocksOk(s, a.w))
    requires !a.UpdateCpu? && !a.UpdateLate? && !a.Number? && !a.Release?
    requires s1.publicValues == s.publicValues && s1.deferred == s.deferred && s1.segmentIndex == s.segmentIndex
    ensures SameUpdate(s, s1)
  {
  }

  lemma {:induction false} ReleaseShared(input: Input, s: System, a: Action)
    requires InputOk(input) && a.Release? && Enabled(input, s, a)
    requires LocksOk(s, a.w) && TurnOk(input, s, a.w) && SharedOk(input, s)
    ensures SharedOk(input, Next(input, s, a))
  {
    FoldNext(input, s.workers[a.w].k);
  }

  lemma {:induction false} StepShared(input: Input, s: System, a: Action)
    requires InputOk(input) && Flow(input, s) && SharedOk(input, s) && Enabled(input, s, a)
    requires a.Send? || (LocksOk(s, a.w) && TurnOk(input, s, a.w))
    ensures SharedOk(input, Next(input, s, a))
  {
    if a.UpdateCpu? {
      UpdateCpuShared(input, s, a);
    } else if a.UpdateLate? {
      UpdateLateShared(input, s, a);
    } else if a.Number? {
      NumberShared(input, s, a);
    } else if a.Release? {
      ReleaseShared(input, s, a);
    } else {
      NextControl(input, s, a);
      NextKeepsData(input, s, a);
      ControlSameUpdate(input, s, a, Next(input, s, a));
      SharedStays(input, s, Next(input, s, a));
    }
  }

  // The files

  /** The first k entries' files, and those of entry k that are no longer pending. */
  ghost predicate Partly(outs: seq<Outcome>, k: nat, pending: set<nat>, files: map<nat, Segment>)
    requires k < |outs|
  {
    forall x: nat :: Lookup(files, x) == PartAt(outs, k, pending, x)
  }

  function PartAt(outs: seq<Outcome>, k: nat, pending: set<nat>, x: nat): Option<Segment>
    requires k < |outs|
  {
    var o := outs[k];
    if o.base <= x < o.base + |o.segments| && x - o.base !in pending then Some(o.segments[x - o.base])
    else FileAt(outs, k, x)
  }

  /** The worker that is writing, if any. */
  predicate SomeWriting(s: System) {
    s.stateLock.Some? && s.stateLock.value < |s.workers| && s.workers[s.stateLock.value].Writing?
  }

  ghost predicate FilesOk(input: Input, s: System)
    requires InputOk(input)
  {
    var outs := WholeRun(input);
    && !s.clobbered
    && if SomeWriting(s) then
         var pc := s.workers[s.stateLock.value];
         && pc.k < |outs| && pc.base == outs[pc.k].base && pc.segments == outs[pc.k].segments
         && (forall j :: j in pc.pending ==> j < |pc.segments|)
         && Partly(outs, pc.k, pc.pending, s.files)
       else s.turn <= |outs| && FilesAre(outs, s.turn, s.files)
  }

  /** Numbers of entry k are not in use before it. */
  lemma {:induction false} NumberIsFresh(input: Input, k: nat, j: nat)
    requires InputOk(input) && k < |input.checkpoints| && j < |WholeRun(input)[k].segments|
    ensures FileAt(WholeRun(input), k, WholeRun(input)[k].base + j).None?
  {
    var outs := WholeRun(input);
    RunChain(input);
    assert Linked(outs, Counts(input), input.initial.shard, k);
    if FileAt(outs, k, outs[k].base + j).Some? {
      FilesBelow(outs, Counts(input), input.initial.shard, k, outs[k].base + j);
    }
  }

  lemma {:induction false} AllPending(outs: seq<Outcome>, k: nat, files: map<nat, Segment>)
    requires k < |outs| && FilesAre(outs, k, files)
    ensures Partly(outs, k, Positions(|outs[k].segments|), files)
  {
    forall x: nat
      ensures Lookup(files, x) == PartAt(outs, k, Positions(|outs[k].segments|), x)
    {
      assert Lookup(files, x) == FileAt(outs, k, x);
    }
  }

  lemma {:induction false} NonePending(outs: seq<Outcome>, k: nat, files: map<nat, Segment>)
    requires k < |outs| && Partly(outs, k, {}, files)
    ensures FilesAre(outs, k + 1, files)
  {
    forall x: nat
      ensures Lookup(files, x) == FileAt(outs, k + 1, x)
    {
      assert Lookup(files, x) == PartAt(outs, k, {}, x);
    }
  }

  lemma {:induction false} OnePending(outs: seq<Outcome>, k: nat, pending: set<nat>, j: nat, files: map<nat, Segment>)
    requires k < |outs| && Partly(outs, k, pending, files) && j in pending && j < |outs[k].segments|
    requires FileAt(outs, k, outs[k].base + j).None?
    ensures outs[k].base + j !in files
    ensures Partly(outs, k, pending - {j}, files[outs[k].base + j := outs[k].segments[j]])
  {
    var files1 := files[outs[k].base + j := outs[k].segments[j]];
    assert Lookup(files, outs[k].base + j) == PartAt(outs, k, pending, outs[k].base + j);
    forall x: nat
      ensures Lookup(files1, x) == PartAt(outs, k, pending - {j}, x)
    {
      assert Lookup(files, x) == PartAt(outs, k, pending, x);
    }
  }

  lemma {:induction false} AdvanceFiles(input: Input, s: System, a: Action)
    requires InputOk(input) && a.Advance? && Enabled(input, s, a) && LocksOk(s, a.w) && TurnOk(input, s, a.w)
    requires SharedOk(input, s) && FilesOk(input, s)
    ensures FilesOk(input, Next(input, s, a))
  {
    var pc := s.workers[a.w];
    RunEntry(input, pc.k);
    AllPending(WholeRun(input), pc.k, s.files);
  }

  lemma {:induction false} WriteFiles(input: Input, s: System, a: Action)
    requires InputOk(input) && a.Write? && Enabled(input, s, a) && LocksOk(s, a.w)
    requires FilesOk(input, s)
    ensures FilesOk(input, Next(input, s, a))
  {
    var pc := s.workers[a.w];
    NumberIsFresh(input, pc.k, a.j);
    OnePending(WholeRun(input), pc.k, pc.pending, a.j, s.files);
  }

  lemma {:induction false} ReleaseFiles(input: Input, s: System, a: Action)
    requires InputOk(input) && a.Release? && Enabled(input, s, a) && LocksOk(s, a.w) && TurnOk(input, s, a.w)
    requires FilesOk(input, s)
    ensures FilesOk(input, Next(input, s, a))
  {
    NonePending(WholeRun(input), s.workers[a.w].k, s.files);
  }

  /** The same files, and the same worker writing, if any. */
  ghost predicate SameFiles(s: System, s1: System) {
    && s1.files == s.files && s1.clobbered == s.clobbered && s1.turn == s.turn
    && SomeWriting(s1) == SomeWriting(s)
    && (SomeWriting(s) ==> s1.workers[s1.stateLock.value] == s.workers[s.stateLock.value])
  }

  lemma FilesStay(input: Input, s: System, s1: System)
    requires InputOk(input) && FilesOk(input, s) && SameFiles(s, s1)
    ensures FilesOk(input, s1)
  {
  }

  lemma {:induction false} ControlSameFiles(input: Input, s: System, a: Action, s1: System)
    requires Control(input, s, a, s1) && (a.Send? || LocksOk(s, a.w))
    requires !a.Advance? && !a.Write? && !a.Release? && s1.files == s.files && s1.clobbered == s.clobbered
    ensures SameFiles(s, s1)
  {
  }

  lemma {:induction false} StepFiles(input: Input, s: System, a: Action)
    requires InputOk(input) && Enabled(input, s, a)
    requires a.Send? || (LocksOk(s, a.w) && TurnOk(input, s, a.w))
    requires SharedOk(input, s) && FilesOk(input, s)
    ensures FilesOk(input, Next(input, s, a))
  {
    if a.Advance? {
      AdvanceFiles(input, s, a);
    } else if a.Write? {
      WriteFiles(input, s, a);
    } else if a.Release? {
      ReleaseFiles(input, s, a);
    } else {
      NextControl(input, s, a);
      NextKeepsData(input, s, a);
      ControlSameFiles(input, s, a, Next(input, s, a));
      FilesStay(input, s, Next(input, s, a));
    }
  }

  ghost predicate Inv(input: Input, s: System)
    requires InputOk(input)
  {
    Structure(input, s) && SharedOk(input, s) && FilesOk(input, s)
  }

  lemma {:induction false} InitInv(input: Input, workers: nat)
    requires InputOk(input)
    ensures Inv(input, Init(input, workers))
  {
  }

  lemma {:induction false} AfterInv(input: Input, workers: nat, schedule: seq<Action>)
    requires InputOk(input)
    ensures Inv(input, After(input, workers, schedule)) && |After(input, workers, schedule).workers| == workers
    decreases |schedule|
  {
    if schedule == [] {
      InitInv(input, workers);
    } else {
      var s, a := After(input, workers, schedule[..|schedule| - 1]), schedule[|schedule| - 1];
      AfterInv(input, workers, schedule[..|schedule| - 1]);
      if Enabled(input, s, a) {
        StepInv(input, s, a);
      }
    }
  }

  lemma {:induction false} StepInv(input: Input, s: System, a: Action)
    requires InputOk(input) && Inv(input, s) && Enabled(input, s, a)
    ensures Inv(input, Next(input, s, a)) && |Next(input, s, a).workers| == |s.workers|
  {
    if !a.Send? {
      assert LocksOk(s, a.w) && TurnOk(input, s, a.w);
    }
    NextControl(input, s, a);
    StepStructure(input, s, a, Next(input, s, a));
    StepShared(input, s, a);
    StepFiles(input, s, a);
  }

  // Results

  predicate Finished(s: System) {
    forall w :: 0 <= w < |s.workers| ==> s.workers[w].Stopped?
  }

  lemma {:induction false} TurnUnfinished(input: Input, s: System)
    requires InputOk(input) && Structure(input, s) && s.turn < |s.takenBy|
    ensures !Finished(s)
  {
    assert InHand(s, s.turn);
    assert !s.workers[s.takenBy[s.turn]].Stopped?;
  }

  lemma {:induction false} LockUnfinished(input: Input, s: System)
    requires InputOk(input) && Structure(input, s) && s.stateLock.Some?
    ensures !Finished(s)
  {
    assert LocksOk(s, s.stateLock.value);
    assert !s.workers[s.stateLock.value].Stopped?;
  }

  lemma {:induction false} FinishedTurn(input: Input, s: System)
    requires InputOk(input) && Structure(input, s) && Finished(s) && s.workers != []
    ensures s.turn == |input.checkpoints| && s.stateLock.None?
  {
    assert TurnOk(input, s, 0);
    if s.turn < |s.takenBy| {
      TurnUnfinished(input, s);
    }
    if s.stateLock.Some? {
      LockUnfinished(input, s);
    }
  }

  /** Whatever the schedule and the number of workers: when all workers have stopped, the
      shared variables and every file are those of the sequential run, and no file was
      ever written twice. */
  lemma {:induction false} RefinesSequentialRun(input: Input, workers: nat, schedule: seq<Action>)
    requires InputOk(input) && workers >= 1 && Finished(After(input, workers, schedule))
    ensures var s, n := After(input, workers, schedule), |input.checkpoints|;
      SharedIs(s, Fold(input, n)) && FilesAre(WholeRun(input), n, s.files) && !s.clobbered
  {
    AfterInv(input, workers, schedule);
    FinishedTurn(input, After(input, workers, schedule));
  }

  lemma {:induction false} StaysInRun(input: Input, k: nat, x: nat)
    requires InputOk(input) && k <= |input.checkpoints| && FileAt(WholeRun(input), k, x).Some?
    ensures FileAt(WholeRun(input), |input.checkpoints|, x) == FileAt(WholeRun(input), k, x)
  {
    RunChain(input);
    FileStays(WholeRun(input), Counts(input), input.initial.shard, k, |input.checkpoints|, x);
  }

  /** At every moment, what has been written is what the sequential run leaves under that
      number at its end, and nothing has been written twice. */
  lemma {:induction false} FilesNeverWrong(input: Input, workers: nat, schedule: seq<Action>, x: nat)
    requires InputOk(input) && x in After(input, workers, schedule).files
    ensures FileAt(WholeRun(input), |input.checkpoints|, x) == Some(After(input, workers, schedule).files[x])
    ensures !After(input, workers, schedule).clobbered
  {
    var s, outs := After(input, workers, schedule), WholeRun(input);
    AfterInv(input, workers, schedule);
    if SomeWriting(s) {
      var pc := s.workers[s.stateLock.value];
      assert Lookup(s.files, x) == PartAt(outs, pc.k, pc.pending, x);
      StaysInRun(input, if FileAt(outs, pc.k, x) == Lookup(s.files, x) then pc.k else pc.k + 1, x);
    } else {
      assert Lookup(s.files, x) == FileAt(outs, s.turn, x);
      StaysInRun(input, s.turn, x);
    }
  }

  /** Every index below the reported total has its file exactly when each checkpoint was
      traced into one record, and then segment x carries shard start + x + 1. */
  lemma {:induction false} SegmentsComplete(input: Input, workers: nat, schedule: seq<Action>)
    requires InputOk(input) && workers >= 1 && Finished(After(input, workers, schedule))
    ensures var s := After(input, workers, schedule);
      (forall x: nat :: x < s.segmentIndex ==> x in s.files) <==> AllOnes(Counts(input))
    ensures var s := After(input, workers, schedule);
      AllOnes(Counts(input)) ==>
        forall x: nat :: x < s.segmentIndex && x in s.files ==> ValuesOf(s.files[x]).shard == input.initial.shard + x + 1
  {
    var s, outs := After(input, workers, schedule), WholeRun(input);
    RefinesSequentialRun(input, workers, schedule);
    GapFree(input);
    RunChain(input);
    RunTotal(input);
    forall x: nat
      ensures x in s.files <==> FileAt(outs, |outs|, x).Some?
    {
      assert Lookup(s.files, x) == FileAt(outs, |outs|, x);
    }
    if AllOnes(Counts(input)) {
      forall x: nat | x < s.segmentIndex && x in s.files
        ensures ValuesOf(s.files[x]).shard == input.initial.shard + x + 1
      {
        FileShards(outs, Counts(input), input.initial.shard, |outs|, x);
        assert Lookup(s.files, x) == FileAt(outs, |outs|, x);
      }
    }
  }

  lemma RunTotal(input: Input)
    requires InputOk(input)
    ensures IndexAt(WholeRun(input), |WholeRun(input)|) == Fold(input, |input.checkpoints|).segmentIndex
  {
  }

  // Deadlock freedom

  lemma {:induction false} HolderSteps(input: Input, s: System)
    requires InputOk(input) && Structure(input, s) && s.stateLock.Some?
    ensures exists a :: Enabled(input, s, a)
  {
    var w := s.stateLock.value;
    assert LocksOk(s, w);
    if s.deferredLock.Some? {
      assert LocksOk(s, s.deferredLock.value);
    }
    if s.indexLock.Some? {
      assert LocksOk(s, s.indexLock.value);
    }
    match s.workers[w]
    case Updated(_, _) => assert Enabled(input, s, UpdateLate(w));
    case Deferred(_, _, _) => assert Enabled(input, s, Number(w));
    case Numbered(_, _, _) => assert Enabled(input, s, Advance(w));
    case Writing(_, _, _, pending) =>
      if pending == {} {
        assert Enabled(input, s, Release(w));
      } else {
        var j :| j in pending;
        assert Enabled(input, s, Write(w, j));
      }
  }

  lemma {:induction false} NextInTurnSteps(input: Input, s: System)
    requires InputOk(input) && Structure(input, s) && s.stateLock.None? && s.turn < |s.takenBy|
    ensures exists a :: Enabled(input, s, a)
  {
    assert InHand(s, s.turn);
    var w := s.takenBy[s.turn];
    assert LocksOk(s, w);
    match s.workers[w]
    case Tracing(_) => assert Enabled(input, s, TraceRecords(w));
    case Waiting(_) => assert Enabled(input, s, TakeTurn(w));
    case Turned(_) => assert Enabled(input, s, UpdateCpu(w));
  }

  lemma {:induction false} ReceiverSteps(input: Input, s: System)
    requires InputOk(input) && Structure(input, s) && s.receiver.Some?
    ensures exists a :: Enabled(input, s, a)
  {
    var w := s.receiver.value;
    assert LocksOk(s, w);
    if s.channel != [] {
      assert Enabled(input, s, Receive(w));
    } else if s.sent == |input.checkpoints| {
      assert Enabled(input, s, Stop(w));
    } else {
      assert Enabled(input, s, Send);
    }
  }

  /** Until all workers have stopped, some thread can always move. */
  lemma {:induction false} NoDeadlock(input: Input, workers: nat, schedule: seq<Action>)
    requires InputOk(input) && !Finished(After(input, workers, schedule))
    ensures exists a :: Enabled(input, After(input, workers, schedule), a)
  {
    var s := After(input, workers, schedule);
    AfterInv(input, workers, schedule);
    if s.stateLock.Some? {
      HolderSteps(input, s);
    } else if s.turn < |s.takenBy| {
      NextInTurnSteps(input, s);
    } else if s.receiver.Some? {
      ReceiverSteps(input, s);
    } else {
      var w :| 0 <= w < |s.workers| && !s.workers[w].Stopped?;
      assert LocksOk(s, w) && TurnOk(input, s, w);
      assert Enabled(input, s, LockReceiver(w));
    }
  }

  // Termination

  function Size(outs: seq<Outcome>, k: nat): nat {
    if k < |outs| then |outs[k].segments| else 0
  }

  /** How many more steps a worker takes before it asks for another checkpoint or stops. */
  function Rank(outs: seq<Outcome>, pc: Pc): nat {
    match pc
    case Idle => 2
    case Receiving => 1
    case Stopped => 0
    case Tracing(k) => 9 + Size(outs, k)
    case Waiting(k) => 8 + Size(outs, k)
    case Turned(k) => 7 + Size(outs, k)
    case Updated(k, _) => 6 + Size(outs, k)
    case Deferred(k, _, _) => 5 + Size(outs, k)
    case Numbered(k, _, _) => 4 + Size(outs, k)
    case Writing(_, _, _, pending) => 3 + |pending|
  }

  function Ranks(outs: seq<Outcome>, workers: seq<Pc>): nat {
    if workers == [] then 0 else Rank(outs, workers[0]) + Ranks(outs, workers[1..])
  }

  /** The steps that the checkpoints from k on still take. */
  function Ahead(outs: seq<Outcome>, k: nat): nat
    decreases |outs| - k
  {
    if k >= |outs| then 0 else 9 + Size(outs, k) + Ahead(outs, k + 1)
  }

  function Work(input: Input, s: System): int
    requires InputOk(input)
  {
    var outs := WholeRun(input);
    |input.checkpoints| - s.sent + Ranks(outs, s.workers) + Ahead(outs, |s.takenBy|)
  }

  lemma {:induction false} RanksUpdate(outs: seq<Outcome>, workers: seq<Pc>, w: nat, pc: Pc)
    requires w < |workers|
    ensures Ranks(outs, workers[w := pc]) == Ranks(outs, workers) - Rank(outs, workers[w]) + Rank(outs, pc)
  {
    if w > 0 {
      assert workers[w := pc][1..] == workers[1..][w - 1 := pc];
      RanksUpdate(outs, workers[1..], w - 1, pc);
    } else {
      assert workers[w := pc][1..] == workers[1..];
    }
  }

  lemma {:induction false} AdvanceSize(input: Input, s: System, w: nat)
    requires InputOk(input) && SharedOk(input, s) && w < |s.workers| && LocksOk(s, w) && s.workers[w].Numbered?
    ensures |s.workers[w].segments| == Size(WholeRun(input), s.workers[w].k)
  {
    RunEntry(input, s.workers[w].k);
  }

  lemma StepShape(input: Input, s: System, a: Action)
    requires InputOk(input) && Enabled(input, s, a) && !a.Send?
    ensures var s1 := Next(input, s, a);
      a.w < |s1.workers| && s1.workers == s.workers[a.w := s1.workers[a.w]] && s1.sent == s.sent
    ensures Next(input, s, a).takenBy == if a.Receive? then s.takenBy + [a.w] else s.takenBy
  {
  }

  /** What a step takes off the rank of its worker, and off the work ahead. */
  lemma {:induction false} StepRank(input: Input, s: System, a: Action, outs: seq<Outcome>)
    requires InputOk(input) && Enabled(input, s, a) && !a.Send?
    requires a.Receive? ==> s.channel[0] == |s.takenBy| < |outs|
    requires a.Advance? ==> |s.workers[a.w].segments| == Size(outs, s.workers[a.w].k)
    requires a.Write? ==> a.j < |s.workers[a.w].segments|
    ensures a.w < |Next(input, s, a).workers|
    ensures Rank(outs, Next(input, s, a).workers[a.w])
      == Rank(outs, s.workers[a.w]) - 1 + if a.Receive? then 9 + Size(outs, |s.takenBy|) else 0
  {
  }

  lemma {:induction false} WriteFits(input: Input, s: System, a: Action)
    requires InputOk(input) && FilesOk(input, s) && a.Write? && Enabled(input, s, a) && LocksOk(s, a.w)
    ensures a.j < |s.workers[a.w].segments|
  {
  }

  lemma {:induction false} StepFits(input: Input, s: System, a: Action)
    requires InputOk(input) && Inv(input, s) && Enabled(input, s, a) && !a.Send?
    ensures a.Receive? ==> s.channel[0] == |s.takenBy| < |WholeRun(input)|
    ensures a.Advance? ==> |s.workers[a.w].segments| == Size(WholeRun(input), s.workers[a.w].k)
    ensures a.Write? ==> a.j < |s.workers[a.w].segments|
  {
    assert LocksOk(s, a.w);
    if a.Advance? {
      AdvanceSize(input, s, a.w);
    } else if a.Write? {
      WriteFits(input, s, a);
    }
  }

  lemma {:induction false} StepWork(input: Input, s: System, a: Action)
    requires InputOk(input) && Inv(input, s) && Enabled(input, s, a)
    ensures Work(input, Next(input, s, a)) == Work(input, s) - 1
  {
    if !a.Send? {
      StepShape(input, s, a);
      StepFits(input, s, a);
      StepRank(input, s, a, WholeRun(input));
      RanksUpdate(WholeRun(input), s.workers, a.w, Next(input, s, a).workers[a.w]);
    }
  }

  /** How many steps of a schedule were possible when their turn came. */
  function Moves(input: Input, workers: nat, schedule: seq<Action>): nat
    requires InputOk(input)
  {
    if schedule == [] then 0
    else
      var before, a := schedule[..|schedule| - 1], schedule[|schedule| - 1];
      Moves(input, workers, before) + if Enabled(input, After(input, workers, before), a) then 1 else 0
  }

  /** Every schedule makes the same number of moves before all workers have stopped, so
      the pipeline cannot run forever. */
  lemma {:induction false} Terminates(input: Input, workers: nat, schedule: seq<Action>)
    requires InputOk(input)
    ensures Moves(input, workers, schedule) + Work(input, After(input, workers, schedule)) == Work(input, Init(input, workers))
    decreases |schedule|
  {
    if schedule != [] {
      var before, a := schedule[..|schedule| - 1], schedule[|schedule| - 1];
      Terminates(input, workers, before);
      AfterInv(input, workers, before);
      if Enabled(input, After(input, workers, before), a) {
        StepWork(input, After(input, workers, before), a);
      }
    }
  }

  lemma {:induction false} NoRankNoWork(outs: seq<Outcome>, workers: seq<Pc>)
    ensures Ranks(outs, workers) == 0 <==> forall w :: 0 <= w < |workers| ==> workers[w].Stopped?
  {
    if workers != [] {
      NoRankNoWork(outs, workers[1..]);
      assert forall w :: 1 <= w < |workers| ==> workers[w] == workers[1..][w - 1];
    }
  }

  /** The workers have all stopped exactly when all the moves have been made. */
  lemma {:induction false} FinishedWhenDone(input: Input, workers: nat, schedule: seq<Action>)
    requires InputOk(input) && workers >= 1
    ensures Moves(input, workers, schedule) <= Work(input, Init(input, workers))
    ensures Finished(After(input, workers, schedule)) <==>
      Moves(input, workers, schedule) == Work(input, Init(input, workers))
  {
    var s := After(input, workers, schedule);
    Terminates(input, workers, schedule);
    AfterInv(input, workers, schedule);
    NoRankNoWork(WholeRun(input), s.workers);
    if Finished(s) {
      assert TurnOk(input, s, 0);
    }
  }
}
