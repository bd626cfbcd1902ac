/** What the splitter does to one checkpoint, and to all of them in turn
    (prover_v2/src/executor.rs, split_with_context, lines 244-328). */
module SplitFold {
  import opened Tasks

  // Digests and address bits are copied, never inspected.
  type Opaque = seq<bv32>

  datatype PublicValues = PublicValues(
    shard: nat, executionShard: nat, startPc: nat, nextPc: nat, committedDigest: Opaque, deferredDigest: Opaque,
    previousInit: Opaque, lastInit: Opaque, previousFinalize: Opaque, lastFinalize: Opaque)

  // The events of an execution record, as the runtime's libraries see them.
  type Events = seq<int>

  datatype Record = Record(publicValues: PublicValues, events: Events)

  // The library calls of the update: a record's defer() leaves some events and yields
  // the others, append() adds them to the accumulator, and split() takes off the records
  // that are ready.
  datatype Machine = Machine(
    defer: Events -> (Events, Events), append: (Events, Events) -> Events, split: (Events, bool) -> (seq<Record>, Events))

  // State(k, pv) is the execution state of checkpoint k.
  datatype Segment = State(checkpoint: nat, publicValues: PublicValues) | Late(record: Record)

  function ValuesOf(s: Segment): PublicValues {
    match s
    case State(_, pv) => pv
    case Late(r) => r.publicValues
  }

  // The variables the workers share under locks.
  datatype Shared = Shared(publicValues: PublicValues, deferred: Events, segmentIndex: nat)

  /** What a record with cpu events makes of the shared public values. */
  function AfterCpu(pv: PublicValues, r: PublicValues): PublicValues {
    pv.(shard := pv.shard + 1, executionShard := r.executionShard, startPc := r.startPc, nextPc := r.nextPc,
        committedDigest := r.committedDigest, deferredDigest := r.deferredDigest)
  }

  function CpuPass(pv: PublicValues, rs: seq<Record>): (r: (PublicValues, seq<Record>))
    ensures |r.1| == |rs|
  {
    if rs == [] then (pv, [])
    else
      var (pv1, done) := CpuPass(pv, rs[..|rs| - 1]);
      var pv2 := AfterCpu(pv1, rs[|rs| - 1].publicValues);
      (pv2, done + [rs[|rs| - 1].(publicValues := pv2)])
  }

  function DeferPass(m: Machine, deferred: Events, rs: seq<Record>): (r: (Events, seq<Record>))
    ensures |r.1| == |rs| && forall k :: 0 <= k < |rs| ==> r.1[k].publicValues == rs[k].publicValues
  {
    if rs == [] then (deferred, [])
    else
      var (deferred1, done) := DeferPass(m, deferred, rs[..|rs| - 1]);
      var (kept, taken) := m.defer(rs[|rs| - 1].events);
      (m.append(deferred1, taken), done + [rs[|rs| - 1].(events := kept)])
  }

  /** What a record without cpu events makes of the shared public values. */
  function AfterLate(pv: PublicValues, r: PublicValues): PublicValues {
    pv.(shard := pv.shard + 1, previousInit := r.previousInit, lastInit := r.lastInit,
        previousFinalize := r.previousFinalize, lastFinalize := r.lastFinalize, startPc := pv.nextPc)
  }

  function LatePass(pv: PublicValues, rs: seq<Record>): (r: (PublicValues, seq<Record>))
    ensures |r.1| == |rs|
  {
    if rs == [] then (pv, [])
    else
      var (pv1, done) := LatePass(pv, rs[..|rs| - 1]);
      var pv2 := AfterLate(pv1, rs[|rs| - 1].publicValues);
      (pv2, done + [rs[|rs| - 1].(publicValues := pv2)])
  }

  // The update in the three parts that the locks separate.

  function AfterDone(pv: PublicValues, done: bool): PublicValues {
    if done then pv else pv.(executionShard := pv.executionShard + 1)
  }

  datatype LateOut = LateOut(publicValues: PublicValues, deferred: Events, records: seq<Record>, late: seq<Record>)

  function DeferAndSplit(m: Machine, pv: PublicValues, deferred: Events, rs: seq<Record>, done: bool): (r: LateOut)
    ensures |r.records| == |rs| && forall k :: 0 <= k < |rs| ==> r.records[k].publicValues == rs[k].publicValues
  {
    var (deferred1, rs1) := DeferPass(m, deferred, rs);
    var (ready, deferred2) := m.split(deferred1, done);
    var (pv1, late) := LatePass(AfterDone(pv, done), ready);
    LateOut(pv1, deferred2, rs1, late)
  }

  function Segments(k: nat, rs: seq<Record>, late: seq<Record>): (segments: seq<Segment>)
    requires rs != []
    ensures |segments| == 1 + |late|
  {
    [State(k, rs[0].publicValues)] + seq(|late|, j requires 0 <= j < |late| => Late(late[j]))
  }

  datatype Outcome = Outcome(shared: Shared, base: nat, segments: seq<Segment>)

  /** Checkpoint k, traced into the records rs. */
  function Process(m: Machine, s: Shared, k: nat, rs: seq<Record>, done: bool): Outcome
    requires rs != []
  {
    var (pv1, rs1) := CpuPass(s.publicValues, rs);
    var out := DeferAndSplit(m, pv1, s.deferred, rs1, done);
    Outcome(
      Shared(out.publicValues, out.deferred, s.segmentIndex + |rs| + |out.late|),
      s.segmentIndex, Segments(k, out.records, out.late))
  }

  // The splitting of a program: the records each checkpoint is traced into, and the
  // public values the workers start from.
  datatype Input = Input(machine: Machine, checkpoints: seq<seq<Record>>, initial: PublicValues, capacity: nat)

  /** Tracing a checkpoint yields at least one record, and there is a final checkpoint. */
  ghost predicate InputOk(input: Input) {
    && input.checkpoints != [] && input.capacity >= 1
    && forall k :: 0 <= k < |input.checkpoints| ==> input.checkpoints[k] != []
  }

  function Done(input: Input, k: nat): bool {
    k + 1 == |input.checkpoints|
  }

  /** What the checkpoints processed so far have yielded, one after the other. */
  function Outcomes(input: Input, k: nat): (outs: seq<Outcome>)
    requires InputOk(input) && k <= |input.checkpoints|
    ensures |outs| == k
  {
    if k == 0 then []
    else
      var before := Outcomes(input, k - 1);
      before + [Process(
        input.machine, SharedAfter(input, before), k - 1, input.checkpoints[k - 1], Done(input, k - 1))]
  }

  function SharedAfter(input: Input, outs: seq<Outcome>): Shared {
    if outs == [] then Shared(input.initial, [], 0) else outs[|outs| - 1].shared
  }

  /** The shared variables after k checkpoints. */
  function Fold(input: Input, k: nat): Shared
    requires InputOk(input) && k <= |input.checkpoints|
  {
    SharedAfter(input, Outcomes(input, k))
  }

  /** What processing checkpoint k yields. */
  function Out(input: Input, k: nat): Outcome
    requires InputOk(input) && k < |input.checkpoints|
  {
    Process(input.machine, Fold(input, k), k, input.checkpoints[k], Done(input, k))
  }

  /** The whole sequential run. */
  function WholeRun(input: Input): seq<Outcome>
    requires InputOk(input)
  {
    Outcomes(input, |input.checkpoints|)
  }

  lemma PrefixOfSnoc(outs: seq<Outcome>, o: Outcome, k: nat)
    requires k <= |outs|
    ensures (outs + [o])[..k] == outs[..k]
  {
  }

  lemma {:induction false} OutcomesPrefix(input: Input, k: nat, m: nat)
    requires InputOk(input) && k <= m <= |input.checkpoints|
    ensures Outcomes(input, m)[..k] == Outcomes(input, k)
    decreases m
  {
    if k < m {
      OutcomesPrefix(input, k, m - 1);
      PrefixOfSnoc(Outcomes(input, m - 1), Out(input, m - 1), k);
    }
  }

  /** The run's entries are what Fold and Out say. */
  lemma {:induction false} RunEntry(input: Input, k: nat)
    requires InputOk(input) && k < |input.checkpoints|
    ensures WholeRun(input)[k] == Out(input, k) && WholeRun(input)[k].shared == Fold(input, k + 1)
  {
    OutcomesPrefix(input, k + 1, |input.checkpoints|);
    assert WholeRun(input)[k] == WholeRun(input)[..k + 1][k];
  }

  /** File x after the first k entries of a run. */
  function FileAt(outs: seq<Outcome>, k: nat, x: nat): Option<Segment>
    requires k <= |outs|
  {
    if k == 0 then None
    else
      var o := outs[k - 1];
      if o.base <= x < o.base + |o.segments| then Some(o.segments[x - o.base]) else FileAt(outs, k - 1, x)
  }

  function Lookup(files: map<nat, Segment>, x: nat): Option<Segment> {
    if x in files then Some(files[x]) else None
  }

  /** files1 is files with the given segments written to base, base+1, ... */
  ghost predicate Wrote(files: map<nat, Segment>, files1: map<nat, Segment>, base: nat, segments: seq<Segment>) {
    forall x: nat :: Lookup(files1, x) ==
      if base <= x < base + |segments| then Some(segments[x - base]) else Lookup(files, x)
  }

  ghost predicate FilesAre(outs: seq<Outcome>, k: nat, files: map<nat, Segment>)
    requires k <= |outs|
  {
    forall x: nat :: Lookup(files, x) == FileAt(outs, k, x)
  }

  lemma WroteNext(outs: seq<Outcome>, k: nat, files: map<nat, Segment>, files1: map<nat, Segment>)
    requires k < |outs| && FilesAre(outs, k, files) && Wrote(files, files1, outs[k].base, outs[k].segments)
    ensures FilesAre(outs, k + 1, files1)
  {
    forall x: nat
      ensures Lookup(files1, x) == FileAt(outs, k + 1, x)
    {
      assert Lookup(files, x) == FileAt(outs, k, x);
    }
  }

  // Properties of the sequential run

  lemma {:induction false} CpuShards(pv: PublicValues, rs: seq<Record>)
    ensures CpuPass(pv, rs).0.shard == pv.shard + |rs|
    ensures forall k :: 0 <= k < |rs| ==> CpuPass(pv, rs).1[k].publicValues.shard == pv.shard + k + 1
  {
    if rs != [] {
      CpuShards(pv, rs[..|rs| - 1]);
    }
  }

  lemma {:induction false} LateShards(pv: PublicValues, rs: seq<Record>)
    ensures LatePass(pv, rs).0.shard == pv.shard + |rs|
    ensures forall k :: 0 <= k < |rs| ==> LatePass(pv, rs).1[k].publicValues.shard == pv.shard + k + 1
  {
    if rs != [] {
      LateShards(pv, rs[..|rs| - 1]);
    }
  }

  /** How the segments of one checkpoint are numbered and sharded. */
  lemma {:induction false} ProcessShards(m: Machine, s: Shared, k: nat, rs: seq<Record>, done: bool)
    requires rs != []
    ensures var o := Process(m, s, k, rs, done);
      && o.base == s.segmentIndex && o.segments != []
      && o.shared.segmentIndex == s.segmentIndex + |o.segments| + |rs| - 1
      && o.shared.publicValues.shard - s.publicValues.shard == o.shared.segmentIndex - s.segmentIndex
      && forall j :: 0 <= j < |o.segments| ==>
           ValuesOf(o.segments[j]).shard == s.publicValues.shard + 1 + j + if j == 0 then 0 else |rs| - 1
  {
    var (pv1, rs1) := CpuPass(s.publicValues, rs);
    var out := DeferAndSplit(m, pv1, s.deferred, rs1, done);
    var ready := m.split(DeferPass(m, s.deferred, rs1).0, done).0;
    CpuShards(s.publicValues, rs);
    LateShards(AfterDone(pv1, done), ready);
    assert out.records[0].publicValues == rs1[0].publicValues;
  }

  /** The segment index after k entries. */
  function IndexAt(outs: seq<Outcome>, k: nat): nat
    requires k <= |outs|
  {
    if k == 0 then 0 else outs[k - 1].shared.segmentIndex
  }

  /** A checkpoint traced into r records takes its numbers from index on, and moves the
      index and the shard number on by as many. */
  ghost predicate LinkOk(o: Outcome, index: nat, r: nat, start: nat) {
    && r >= 1 && o.base == index && o.segments != []
    && o.shared.segmentIndex == index + |o.segments| + r - 1
    && o.shared.publicValues.shard == start + o.shared.segmentIndex
    && (r == 1 ==> forall j :: 0 <= j < |o.segments| ==> ValuesOf(o.segments[j]).shard == start + index + j + 1)
  }

  ghost predicate Linked(outs: seq<Outcome>, counts: seq<nat>, start: nat, k: nat) {
    k < |outs| == |counts| && LinkOk(outs[k], IndexAt(outs, k), counts[k], start)
  }

  ghost predicate Chain(outs: seq<Outcome>, counts: seq<nat>, start: nat) {
    |counts| == |outs| && forall k :: 0 <= k < |outs| ==> Linked(outs, counts, start, k)
  }

  function Counts(input: Input): seq<nat> {
    seq(|input.checkpoints|, k requires 0 <= k < |input.checkpoints| => |input.checkpoints[k]|)
  }

  lemma {:induction false} ShardIndex(input: Input, k: nat)
    requires InputOk(input) && k <= |input.checkpoints|
    ensures Fold(input, k).publicValues.shard == input.initial.shard + Fold(input, k).segmentIndex
  {
    if k > 0 {
      ShardIndex(input, k - 1);
      ProcessShards(input.machine, Fold(input, k - 1), k - 1, input.checkpoints[k - 1], Done(input, k - 1));
    }
  }

  lemma {:induction false} RunIndex(input: Input, k: nat)
    requires InputOk(input) && k <= |input.checkpoints|
    ensures IndexAt(WholeRun(input), k) == Fold(input, k).segmentIndex
  {
    if k > 0 {
      RunEntry(input, k - 1);
    }
  }

  lemma {:induction false} RunLinked(input: Input, k: nat)
    requires InputOk(input) && k < |input.checkpoints|
    ensures Linked(WholeRun(input), Counts(input), input.initial.shard, k)
  {
    RunEntry(input, k);
    RunIndex(input, k);
    ShardIndex(input, k);
    ProcessShards(input.machine, Fold(input, k), k, input.checkpoints[k], Done(input, k));
  }

  lemma {:induction false} RunChain(input: Input)
    requires InputOk(input)
    ensures Chain(WholeRun(input), Counts(input), input.initial.shard)
  {
    forall k | 0 <= k < |input.checkpoints|
      ensures Linked(WholeRun(input), Counts(input), input.initial.shard, k)
    {
      RunLinked(input, k);
    }
  }

  /** The segment index never falls. */
  lemma {:induction false} IndexGrows(outs: seq<Outcome>, counts: seq<nat>, start: nat, k: nat, m: nat)
    requires Chain(outs, counts, start) && k <= m <= |outs|
    ensures IndexAt(outs, k) <= IndexAt(outs, m)
    decreases m
  {
    if k < m {
      IndexGrows(outs, counts, start, k, m - 1);
      assert Linked(outs, counts, start, m - 1);
    }
  }

  /** All files so far lie below the segment index, so no number is used twice. */
  lemma {:induction false} FilesBelow(outs: seq<Outcome>, counts: seq<nat>, start: nat, k: nat, x: nat)
    requires Chain(outs, counts, start) && k <= |outs| && FileAt(outs, k, x).Some?
    ensures x < IndexAt(outs, k)
    decreases k
  {
    assert Linked(outs, counts, start, k - 1);
    if FileAt(outs, k - 1, x).Some? {
      FilesBelow(outs, counts, start, k - 1, x);
    }
  }

  /** What an entry writes is never written over. */
  lemma {:induction false} FileStays(outs: seq<Outcome>, counts: seq<nat>, start: nat, k: nat, m: nat, x: nat)
    requires Chain(outs, counts, start) && k <= m <= |outs| && FileAt(outs, k, x).Some?
    ensures FileAt(outs, m, x) == FileAt(outs, k, x)
    decreases m
  {
    if k < m {
      FileStays(outs, counts, start, k, m - 1, x);
      FilesBelow(outs, counts, start, m - 1, x);
      assert Linked(outs, counts, start, m - 1);
    }
  }

  /** What the debug assertion in the worker says. */
  predicate AllOnes(counts: seq<nat>) {
    forall k :: 0 <= k < |counts| ==> counts[k] == 1
  }

  /** Every number below the final index has its file. */
  ghost predicate NoGap(outs: seq<Outcome>) {
    forall x: nat :: x < IndexAt(outs, |outs|) ==> FileAt(outs, |outs|, x).Some?
  }

  /** With one record per checkpoint, every number below the index has its file, and
      segment x carries shard start + x + 1. */
  lemma {:induction false} FileShards(outs: seq<Outcome>, counts: seq<nat>, start: nat, k: nat, x: nat)
    requires Chain(outs, counts, start) && k <= |outs| && AllOnes(counts) && x < IndexAt(outs, k)
    ensures FileAt(outs, k, x).Some? && ValuesOf(FileAt(outs, k, x).value).shard == start + x + 1
    decreases k
  {
    assert Linked(outs, counts, start, k - 1);
    if x < IndexAt(outs, k - 1) {
      FileShards(outs, counts, start, k - 1, x);
    }
  }

  /** A number skipped by entry k is never used. */
  lemma {:induction false} SkippedStays(outs: seq<Outcome>, counts: seq<nat>, start: nat, k: nat, m: nat, x: nat)
    requires Chain(outs, counts, start) && k < m <= |outs|
    requires IndexAt(outs, k) + |outs[k].segments| <= x < IndexAt(outs, k + 1)
    ensures FileAt(outs, m, x).None?
    decreases m
  {
    assert Linked(outs, counts, start, m - 1);
    if m == k + 1 {
      if FileAt(outs, k, x).Some? {
        FilesBelow(outs, counts, start, k, x);
      }
    } else {
      SkippedStays(outs, counts, start, k, m - 1, x);
      IndexGrows(outs, counts, start, k + 1, m - 1);
    }
  }

  /** The files of the sequential run are numbered 0, 1, ... without a gap exactly when
      every checkpoint is traced into one record. */
  lemma {:induction false} GapFree(input: Input)
    requires InputOk(input)
    ensures NoGap(WholeRun(input)) <==> AllOnes(Counts(input))
  {
    var outs, counts, start := WholeRun(input), Counts(input), input.initial.shard;
    RunChain(input);
    if AllOnes(counts) {
      forall x: nat | x < IndexAt(outs, |outs|)
        ensures FileAt(outs, |outs|, x).Some?
      {
        FileShards(outs, counts, start, |outs|, x);
      }
    } else {
      var k :| 0 <= k < |counts| && counts[k] != 1;
      assert Linked(outs, counts, start, k);
      SkippedStays(outs, counts, start, k, |outs|, IndexAt(outs, k) + |outs[k].segments|);
      IndexGrows(outs, counts, start, k + 1, |outs|);
    }
  }

  /** The update as the worker's loops do it, on the shared variables themselves. */
  class Splitter {
    const machine: Machine
    var publicValues: PublicValues
    var deferred: Events
    var segmentIndex: nat
    var segmentsTxt: Option<nat>
    var files: map<nat, Segment>

    ghost function View(): Shared
      reads this
    {
      Shared(publicValues, deferred, segmentIndex)
    }

    constructor (input: Input)
      ensures machine == input.machine && View() == Shared(input.initial, [], 0) && files == map[]
    {
      machine, publicValues := input.machine, input.initial;
      deferred, segmentIndex, segmentsTxt, files := [], 0, None, map[];
    }

    method UpdateCpu(rs: seq<Record>) returns (rs': seq<Record>)
      modifies this`publicValues
      ensures (publicValues, rs') == CpuPass(old(publicValues), rs)
    {
      rs' := [];
      var k := 0;
      while k < |rs|
        invariant k <= |rs| && (publicValues, rs') == CpuPass(old(publicValues), rs[..k])
      {
        assert rs[..k + 1][..k] == rs[..k];
        publicValues := publicValues.(shard := publicValues.shard + 1);
        publicValues := publicValues.(executionShard := rs[k].publicValues.executionShard);
        publicValues := publicValues.(startPc := rs[k].publicValues.startPc);
        publicValues := publicValues.(nextPc := rs[k].publicValues.nextPc);
        publicValues := publicValues.(committedDigest := rs[k].publicValues.committedDigest);
        publicValues := publicValues.(deferredDigest := rs[k].publicValues.deferredDigest);
        rs' := rs' + [rs[k].(publicValues := publicValues)];
        k := k + 1;
      }
      assert rs[..k] == rs;
    }

    method DeferEvents(rs: seq<Record>) returns (rs': seq<Record>)
      modifies this`deferred
      ensures (deferred, rs') == DeferPass(machine, old(deferred), rs)
    {
      rs' := [];
      var k := 0;
      while k < |rs|
        invariant k <= |rs| && (deferred, rs') == DeferPass(machine, old(deferred), rs[..k])
      {
        assert rs[..k + 1][..k] == rs[..k];
        var (kept, taken) := machine.defer(rs[k].events);
        deferred := machine.append(deferred, taken);
        rs' := rs' + [rs[k].(events := kept)];
        k := k + 1;
      }
      assert rs[..k] == rs;
    }

    method UpdateLate(ready: seq<Record>) returns (late: seq<Record>)
      modifies this`publicValues
      ensures (publicValues, late) == LatePass(old(publicValues), ready)
    {
      late := [];
      var k := 0;
      while k < |ready|
        invariant k <= |ready| && (publicValues, late) == LatePass(old(publicValues), ready[..k])
      {
        assert ready[..k + 1][..k] == ready[..k];
        publicValues := publicValues.(shard := publicValues.shard + 1);
        publicValues := publicValues.(previousInit := ready[k].publicValues.previousInit);
        publicValues := publicValues.(lastInit := ready[k].publicValues.lastInit);
        publicValues := publicValues.(previousFinalize := ready[k].publicValues.previousFinalize);
        publicValues := publicValues.(lastFinalize := ready[k].publicValues.lastFinalize);
        publicValues := publicValues.(startPc := publicValues.nextPc);
        late := late + [ready[k].(publicValues := publicValues)];
        k := k + 1;
      }
      assert ready[..k] == ready;
    }

    method WriteSegments(base: nat, segments: seq<Segment>)
      modifies this`files
      ensures Wrote(old(files), files, base, segments)
    {
      var j := 0;
      while j < |segments|
        invariant j <= |segments| && Wrote(old(files), files, base, segments[..j])
      {
        ghost var before := files;
        files := files[base + j := segments[j]];
        WroteOne(old(files), before, files, base, segments, j);
        j := j + 1;
      }
      assert segments[..j] == segments;
    }

    /** records[0] does not exist when tracing yields nothing; the source would panic. */
    method ProcessCheckpoint(k: nat, rs: seq<Record>, done: bool)
      requires rs != []
      modifies this
      ensures var o := Process(machine, old(View()), k, rs, done);
        && View() == o.shared && Wrote(old(files), files, o.base, o.segments)
        && segmentsTxt == Some(segmentIndex)
    {
      var records := UpdateCpu(rs);
      records := DeferEvents(records);
      var (ready, rest) := machine.split(deferred, done);
      deferred := rest;
      if !done {
        publicValues := publicValues.(executionShard := publicValues.executionShard + 1);
      }
      var late := UpdateLate(ready);
      var base := segmentIndex;
      segmentIndex := segmentIndex + |records| + |late|;
      segmentsTxt := Some(segmentIndex);
      WriteSegments(base, Segments(k, records, late));
    }

    method Next(input: Input, k: nat)
      requires InputOk(input) && k < |input.checkpoints| && machine == input.machine
      requires View() == Fold(input, k) && FilesAre(WholeRun(input), k, files)
      modifies this
      ensures View() == Fold(input, k + 1) && FilesAre(WholeRun(input), k + 1, files)
    {
      RunEntry(input, k);
      ProcessCheckpoint(k, input.checkpoints[k], Done(input, k));
      WroteNext(WholeRun(input), k, old(files), files);
    }
  }

  lemma WroteOne(
    files: map<nat, Segment>, files1: map<nat, Segment>, files2: map<nat, Segment>,
    base: nat, segments: seq<Segment>, j: nat)
    requires j < |segments| && Wrote(files, files1, base, segments[..j]) && files2 == files1[base + j := segments[j]]
    ensures Wrote(files, files2, base, segments[..j + 1])
  {
    forall x: nat
      ensures Lookup(files2, x) ==
        if base <= x < base + j + 1 then Some(segments[..j + 1][x - base]) else Lookup(files, x)
    {
      assert Lookup(files1, x) == if base <= x < base + j then Some(segments[..j][x - base]) else Lookup(files, x);
    }
  }

  /** All checkpoints by one worker: the sequential run. */
  method SplitSequentially(input: Input) returns (s: Splitter)
    requires InputOk(input)
    ensures s.View() == Fold(input, |input.checkpoints|) && FilesAre(WholeRun(input), |input.checkpoints|, s.files)
  {
    s := new Splitter(input);
    var k := 0;
    while k < |input.checkpoints|
      invariant k <= |input.checkpoints| && fresh(s) && s.machine == input.machine
      invariant s.View() == Fold(input, k) && FilesAre(WholeRun(input), k, s.files)
    {
      s.Next(input, k);
      k := k + 1;
    }
  }
}
