/** What the splitter does with the records themselves: no traced event is lost or doubled on
    its way into the segments, and each segment carries the public values of its place. */
module SplitValues {
  import opened SplitFold

  // The library calls

  /** append() adds at the end. */
  ghost predicate Concatenates(m: Machine) {
    forall a, b :: m.append(a, b) == a + b
  }

  function EventsOf(rs: seq<Record>): Events {
    if rs == [] then [] else rs[0].events + EventsOf(rs[1..])
  }

  ghost predicate DeferParts(m: Machine, e: Events) {
    multiset(m.defer(e).0) + multiset(m.defer(e).1) == multiset(e)
  }

  ghost predicate SplitParts(m: Machine, d: Events, done: bool) {
    multiset(EventsOf(m.split(d, done).0)) + multiset(m.split(d, done).1) == multiset(d)
  }

  /** defer() and split() part their events, so that none is lost or doubled. */
  ghost predicate Parts(m: Machine) {
    (forall e :: DeferParts(m, e)) && forall d, done :: SplitParts(m, d, done)
  }

  // What the records of one checkpoint give up, and what they keep

  function Kept(m: Machine, rs: seq<Record>): Events {
    if rs == [] then [] else m.defer(rs[0].events).0 + Kept(m, rs[1..])
  }

  function Taken(m: Machine, rs: seq<Record>): Events {
    if rs == [] then [] else m.defer(rs[0].events).1 + Taken(m, rs[1..])
  }

  lemma {:induction false} TakenSnoc(m: Machine, rs: seq<Record>, r: Record)
    ensures Taken(m, rs + [r]) == Taken(m, rs) + m.defer(r.events).1
  {
    if rs == [] {
      assert rs + [r] == [r];
      assert [r][1..] == [];
    } else {
      assert (rs + [r])[1..] == rs[1..] + [r];
      TakenSnoc(m, rs[1..], r);
    }
  }

  lemma {:induction false} PassTakes(m: Machine, deferred: Events, rs: seq<Record>)
    requires Concatenates(m)
    ensures DeferPass(m, deferred, rs).0 == deferred + Taken(m, rs)
  {
    if rs != [] {
      var before, r := rs[..|rs| - 1], rs[|rs| - 1];
      PassTakes(m, deferred, before);
      TakenSnoc(m, before, r);
      assert rs == before + [r];
    }
  }

  lemma {:induction false} KeptAndTaken(m: Machine, rs: seq<Record>)
    requires Parts(m)
    ensures multiset(Kept(m, rs)) + multiset(Taken(m, rs)) == multiset(EventsOf(rs))
  {
    if rs != [] {
      assert DeferParts(m, rs[0].events);
      KeptAndTaken(m, rs[1..]);
    }
  }

  lemma {:induction false} SameEvents(rs: seq<Record>, rs1: seq<Record>)
    requires |rs| == |rs1| && forall j :: 0 <= j < |rs| ==> rs[j].events == rs1[j].events
    ensures EventsOf(rs) == EventsOf(rs1)
  {
    if rs != [] {
      assert forall j :: 0 <= j < |rs[1..]| ==> rs[1..][j] == rs[j + 1] && rs1[1..][j] == rs1[j + 1];
      SameEvents(rs[1..], rs1[1..]);
    }
  }

  /** The cpu pass leaves the events alone. */
  lemma {:induction false} CpuEvents(pv: PublicValues, rs: seq<Record>)
    ensures forall j :: 0 <= j < |rs| ==> CpuPass(pv, rs).1[j].events == rs[j].events
  {
    if rs != [] {
      CpuEvents(pv, rs[..|rs| - 1]);
    }
  }

  lemma {:induction false} SameTaken(m: Machine, rs: seq<Record>, rs1: seq<Record>)
    requires |rs| == |rs1| && forall j :: 0 <= j < |rs| ==> rs[j].events == rs1[j].events
    ensures Taken(m, rs) == Taken(m, rs1)
  {
    if rs != [] {
      assert forall j :: 0 <= j < |rs[1..]| ==> rs[1..][j] == rs[j + 1] && rs1[1..][j] == rs1[j + 1];
      SameTaken(m, rs[1..], rs1[1..]);
    }
  }

  // The public values

  /** A traced record's own values, at shard n; the address bits are handed through. */
  predicate TracedValues(pv: PublicValues, r: PublicValues, before: PublicValues, n: nat) {
    && pv.shard == n && pv.executionShard == r.executionShard
    && pv.startPc == r.startPc && pv.nextPc == r.nextPc
    && pv.committedDigest == r.committedDigest && pv.deferredDigest == r.deferredDigest
    && SameBits(pv, before)
  }

  predicate SameBits(pv: PublicValues, r: PublicValues) {
    && pv.previousInit == r.previousInit && pv.lastInit == r.lastInit
    && pv.previousFinalize == r.previousFinalize && pv.lastFinalize == r.lastFinalize
  }

  /** A late segment's values at shard n: its own address bits; it runs nothing, and stands
      after the last traced record. */
  predicate LateValues(pv: PublicValues, r: PublicValues, traced: PublicValues, done: bool, n: nat) {
    && pv.shard == n && pv.executionShard == traced.executionShard + (if done then 0 else 1)
    && pv.startPc == traced.nextPc && pv.nextPc == traced.nextPc
    && pv.committedDigest == traced.committedDigest && pv.deferredDigest == traced.deferredDigest
    && SameBits(pv, r)
  }

  lemma {:induction false} CpuValues(pv: PublicValues, rs: seq<Record>)
    ensures forall j :: 0 <= j < |rs| ==>
      TracedValues(CpuPass(pv, rs).1[j].publicValues, rs[j].publicValues, pv, pv.shard + j + 1)
    ensures CpuPass(pv, rs).0 == if rs == [] then pv else CpuPass(pv, rs).1[|rs| - 1].publicValues
  {
    if rs != [] {
      CpuValues(pv, rs[..|rs| - 1]);
    }
  }

  /** The values of the late segments, and where they leave the shared ones. */
  lemma {:induction false} LatePassValues(pv: PublicValues, rs: seq<Record>, traced: PublicValues, done: bool)
    requires traced.nextPc == pv.nextPc && pv.executionShard == traced.executionShard + (if done then 0 else 1)
    requires pv.committedDigest == traced.committedDigest && pv.deferredDigest == traced.deferredDigest
    ensures forall j :: 0 <= j < |rs| ==>
      && LateValues(LatePass(pv, rs).1[j].publicValues, rs[j].publicValues, traced, done, pv.shard + j + 1)
      && LatePass(pv, rs).1[j].events == rs[j].events
    ensures LatePass(pv, rs).0 == if rs == [] then pv else LatePass(pv, rs).1[|rs| - 1].publicValues
  {
    if rs != [] {
      LatePassValues(pv, rs[..|rs| - 1], traced, done);
    }
  }

  // One checkpoint of a run

  /** All events that wait for a segment once checkpoint k has been traced. */
  function Backlog(input: Input, k: nat): Events
    requires InputOk(input) && k < |input.checkpoints|
  {
    Fold(input, k).deferred + Taken(input.machine, input.checkpoints[k])
  }

  /** Is k the last checkpoint? */
  predicate IsLast(input: Input, k: nat) {
    k == |input.checkpoints| - 1
  }

  function ReadyAt(input: Input, k: nat): seq<Record>
    requires InputOk(input) && k < |input.checkpoints|
  {
    input.machine.split(Backlog(input, k), IsLast(input, k)).0
  }

  function LeftAt(input: Input, k: nat): Events
    requires InputOk(input) && k < |input.checkpoints|
  {
    input.machine.split(Backlog(input, k), IsLast(input, k)).1
  }

  lemma {:induction false} PassesOf(input: Input, k: nat)
    requires InputOk(input) && Concatenates(input.machine) && k < |input.checkpoints|
    ensures var (pv1, rs1) := CpuPass(Fold(input, k).publicValues, input.checkpoints[k]);
      DeferPass(input.machine, Fold(input, k).deferred, rs1).0 == Backlog(input, k)
  {
    var rs := input.checkpoints[k];
    var (pv1, rs1) := CpuPass(Fold(input, k).publicValues, rs);
    CpuEvents(Fold(input, k).publicValues, rs);
    SameTaken(input.machine, rs, rs1);
    PassTakes(input.machine, Fold(input, k).deferred, rs1);
  }

  /** The outcome of a checkpoint, given what is split off its backlog. */
  ghost predicate IsOutcome(o: Outcome, before: PublicValues, k: nat, rs: seq<Record>, done: bool, ready: seq<Record>)
    requires rs != []
  {
    var (pv1, rs1) := CpuPass(before, rs);
    var (pv2, late) := LatePass(AfterDone(pv1, done), ready);
    && o.shared.publicValues == pv2 && |o.segments| == 1 + |late| && |late| == |ready|
    && o.segments[0] == State(k, rs1[0].publicValues)
    && forall j :: 0 <= j < |late| ==> o.segments[1 + j] == Late(late[j])
  }

  lemma {:induction false} ProcessIs(m: Machine, s: Shared, k: nat, rs: seq<Record>, done: bool, backlog: Events)
    requires rs != [] && DeferPass(m, s.deferred, CpuPass(s.publicValues, rs).1).0 == backlog
    ensures var o := Process(m, s, k, rs, done);
      IsOutcome(o, s.publicValues, k, rs, done, m.split(backlog, done).0) && o.shared.deferred == m.split(backlog, done).1
  {
  }

  lemma {:induction false} EntryIs(input: Input, k: nat)
    requires InputOk(input) && Concatenates(input.machine) && k < |input.checkpoints|
    ensures IsOutcome(
      WholeRun(input)[k], Fold(input, k).publicValues, k, input.checkpoints[k], IsLast(input, k), ReadyAt(input, k))
    ensures WholeRun(input)[k].shared == Fold(input, k + 1) && Fold(input, k + 1).deferred == LeftAt(input, k)
  {
    RunEntry(input, k);
    PassesOf(input, k);
    ProcessIs(input.machine, Fold(input, k), k, input.checkpoints[k], IsLast(input, k), Backlog(input, k));
  }

  /** A state segment, and then these records' events in order. */
  ghost predicate CarriesEvents(segments: seq<Segment>, rs: seq<Record>) {
    |segments| == 1 + |rs| && segments[0].State? && forall j :: 0 <= j < |rs| ==> CarriesAt(segments, rs, j)
  }

  predicate CarriesAt(segments: seq<Segment>, rs: seq<Record>, j: nat)
    requires j < |rs| == |segments| - 1
  {
    segments[1 + j].Late? && segments[1 + j].record.events == rs[j].events
  }

  lemma {:induction false} OutcomeEvents(
    o: Outcome, before: PublicValues, k: nat, rs: seq<Record>, done: bool, ready: seq<Record>)
    requires rs != [] && IsOutcome(o, before, k, rs, done, ready)
    ensures CarriesEvents(o.segments, ready)
  {
    var late := LatePass(AfterDone(CpuPass(before, rs).0, done), ready).1;
    LateEventsKept(AfterDone(CpuPass(before, rs).0, done), ready);
    forall j | 0 <= j < |ready|
      ensures CarriesAt(o.segments, ready, j)
    {
      assert o.segments[1 + j] == Late(late[j]);
    }
  }

  /** The late segments of checkpoint k are the records that split() takes off the backlog, in
      order and with their events; what it leaves waits for the next checkpoint. */
  lemma {:induction false} EntryEvents(input: Input, k: nat)
    requires InputOk(input) && Concatenates(input.machine) && k < |input.checkpoints|
    ensures CarriesEvents(WholeRun(input)[k].segments, ReadyAt(input, k))
    ensures Fold(input, k + 1).deferred == LeftAt(input, k)
  {
    EntryIs(input, k);
    OutcomeEvents(
      WholeRun(input)[k], Fold(input, k).publicValues, k, input.checkpoints[k], IsLast(input, k), ReadyAt(input, k));
  }

  lemma {:induction false} LateEventsKept(pv: PublicValues, rs: seq<Record>)
    ensures forall j :: 0 <= j < |rs| ==> LatePass(pv, rs).1[j].events == rs[j].events
  {
    if rs != [] {
      LateEventsKept(pv, rs[..|rs| - 1]);
    }
  }

  /** The values of the last record traced from checkpoint k. */
  function LastTraced(input: Input, k: nat): PublicValues
    requires InputOk(input) && k < |input.checkpoints|
  {
    input.checkpoints[k][|input.checkpoints[k]| - 1].publicValues
  }

  /** The state segment of checkpoint k carries the values of its first record. */
  lemma {:induction false} StateSegment(input: Input, k: nat)
    requires InputOk(input) && k < |input.checkpoints|
    ensures var o, before := WholeRun(input)[k], Fold(input, k).publicValues;
      && o.segments != [] && o.segments[0].State? && o.segments[0].checkpoint == k
      && TracedValues(o.segments[0].publicValues, input.checkpoints[k][0].publicValues, before, before.shard + 1)
  {
    RunEntry(input, k);
    CpuValues(Fold(input, k).publicValues, input.checkpoints[k]);
  }

  /** The late segments have these values, counted on from shard n. */
  ghost predicate LatesCarry(segments: seq<Segment>, ready: seq<Record>, traced: PublicValues, done: bool, n: nat) {
    && |segments| == 1 + |ready|
    && forall j :: 0 <= j < |ready| ==> LateValues(ValuesOf(segments[1 + j]), ready[j].publicValues, traced, done, n + j + 1)
  }

  lemma {:induction false} OutcomeValues(
    o: Outcome, before: PublicValues, k: nat, rs: seq<Record>, done: bool, ready: seq<Record>)
    requires rs != [] && IsOutcome(o, before, k, rs, done, ready)
    ensures LatesCarry(o.segments, ready, rs[|rs| - 1].publicValues, done, before.shard + |rs|)
    ensures SameBits(o.shared.publicValues, if ready == [] then before else ready[|ready| - 1].publicValues)
  {
    var late := LatePass(AfterDone(CpuPass(before, rs).0, done), ready).1;
    CpuValues(before, rs);
    LatePassValues(AfterDone(CpuPass(before, rs).0, done), ready, rs[|rs| - 1].publicValues, done);
    forall j | 0 <= j < |ready|
      ensures ValuesOf(o.segments[1 + j]) == late[j].publicValues
    {
      assert o.segments[1 + j] == Late(late[j]);
    }
  }

  /** Each late segment carries its own address bits and, for the rest, the values of the last
      record traced; the execution shard moves on unless the checkpoint was the last.  The next
      checkpoint finds the address bits of the last late segment, or those this one found. */
  lemma {:induction false} LateSegments(input: Input, k: nat)
    requires InputOk(input) && Concatenates(input.machine) && k < |input.checkpoints|
    ensures LatesCarry(
      WholeRun(input)[k].segments, ReadyAt(input, k), LastTraced(input, k), IsLast(input, k),
      Fold(input, k).publicValues.shard + |input.checkpoints[k]|)
    ensures var ready, pv := ReadyAt(input, k), Fold(input, k + 1).publicValues;
      SameBits(pv, if ready == [] then Fold(input, k).publicValues else ready[|ready| - 1].publicValues)
  {
    EntryIs(input, k);
    OutcomeValues(
      WholeRun(input)[k], Fold(input, k).publicValues, k, input.checkpoints[k], IsLast(input, k), ReadyAt(input, k));
  }

  // No event is lost

  /** The events traced from the first k checkpoints. */
  function Traced(input: Input, k: nat): Events
    requires k <= |input.checkpoints|
  {
    if k == 0 then [] else Traced(input, k - 1) + EventsOf(input.checkpoints[k - 1])
  }

  /** Those that stay with their records, and are proved with the state segments. */
  function KeptUpTo(input: Input, k: nat): Events
    requires k <= |input.checkpoints|
  {
    if k == 0 then [] else KeptUpTo(input, k - 1) + Kept(input.machine, input.checkpoints[k - 1])
  }

  function LateOf(segments: seq<Segment>): Events {
    if segments == [] then []
    else (if segments[0].Late? then segments[0].record.events else []) + LateOf(segments[1..])
  }

  /** Those in the late segments of the first k checkpoints. */
  function LateUpTo(outs: seq<Outcome>, k: nat): Events
    requires k <= |outs|
  {
    if k == 0 then [] else LateUpTo(outs, k - 1) + LateOf(outs[k - 1].segments)
  }

  lemma {:induction false} LateOfRecords(segments: seq<Segment>, rs: seq<Record>)
    requires |segments| == |rs|
    requires forall j :: 0 <= j < |rs| ==> segments[j].Late? && segments[j].record.events == rs[j].events
    ensures LateOf(segments) == EventsOf(rs)
  {
    if rs != [] {
      assert forall j :: 0 <= j < |rs[1..]| ==> rs[1..][j] == rs[j + 1] && segments[1..][j] == segments[j + 1];
      LateOfRecords(segments[1..], rs[1..]);
    }
  }

  lemma LateOfEntry(segments: seq<Segment>, rs: seq<Record>)
    requires CarriesEvents(segments, rs)
    ensures LateOf(segments) == EventsOf(rs)
  {
    forall j | 0 <= j < |rs|
      ensures segments[1..][j].Late? && segments[1..][j].record.events == rs[j].events
    {
      assert CarriesAt(segments, rs, j);
    }
    LateOfRecords(segments[1..], rs);
    assert LateOf(segments) == [] + LateOf(segments[1..]);
  }

  /** What waited and what was traced is kept, ready or left. */
  lemma Balance(
    before: multiset<int>, traced: multiset<int>, kept: multiset<int>, taken: multiset<int>, late: multiset<int>,
    left: multiset<int>)
    requires kept + taken == traced && late + left == before + taken
    ensures before + traced == kept + late + left
  {
    forall x
      ensures (before + traced)[x] == (kept + late + left)[x]
    {
      assert (kept + taken)[x] == traced[x] && (late + left)[x] == (before + taken)[x];
    }
  }

  lemma {:induction false} BacklogParts(input: Input, k: nat)
    requires InputOk(input) && Parts(input.machine) && k < |input.checkpoints|
    ensures multiset(EventsOf(ReadyAt(input, k))) + multiset(LeftAt(input, k))
         == multiset(Fold(input, k).deferred) + multiset(Taken(input.machine, input.checkpoints[k]))
  {
    assert SplitParts(input.machine, Backlog(input, k), IsLast(input, k));
  }

  lemma {:induction false} LateOfReady(input: Input, k: nat)
    requires InputOk(input) && Concatenates(input.machine) && k < |input.checkpoints|
    ensures LateOf(WholeRun(input)[k].segments) == EventsOf(ReadyAt(input, k))
    ensures Fold(input, k + 1).deferred == LeftAt(input, k)
  {
    EntryEvents(input, k);
    LateOfEntry(WholeRun(input)[k].segments, ReadyAt(input, k));
  }

  lemma {:induction false} EntryConserves(input: Input, k: nat)
    requires InputOk(input) && Concatenates(input.machine) && Parts(input.machine) && k < |input.checkpoints|
    ensures multiset(Fold(input, k).deferred) + multiset(EventsOf(input.checkpoints[k]))
         == multiset(Kept(input.machine, input.checkpoints[k])) + multiset(LateOf(WholeRun(input)[k].segments))
            + multiset(Fold(input, k + 1).deferred)
  {
    var m, rs := input.machine, input.checkpoints[k];
    LateOfReady(input, k);
    KeptAndTaken(m, rs);
    BacklogParts(input, k);
    Balance(
      multiset(Fold(input, k).deferred), multiset(EventsOf(rs)), multiset(Kept(m, rs)), multiset(Taken(m, rs)),
      multiset(EventsOf(ReadyAt(input, k))), multiset(LeftAt(input, k)));
  }

  lemma Carry(
    traced: multiset<int>, kept: multiset<int>, late: multiset<int>, waiting: multiset<int>,
    moreTraced: multiset<int>, moreKept: multiset<int>, moreLate: multiset<int>, left: multiset<int>)
    requires traced == kept + late + waiting && waiting + moreTraced == moreKept + moreLate + left
    ensures traced + moreTraced == (kept + moreKept) + (late + moreLate) + left
  {
    forall x
      ensures (traced + moreTraced)[x] == ((kept + moreKept) + (late + moreLate) + left)[x]
    {
      assert traced[x] == (kept + late + waiting)[x];
      assert (waiting + moreTraced)[x] == (moreKept + moreLate + left)[x];
    }
  }

  /** At every point of the run, each traced event is in exactly one place: with its record, in
      a late segment, or waiting. */
  lemma {:induction false} EventsConserved(input: Input, k: nat)
    requires InputOk(input) && Concatenates(input.machine) && Parts(input.machine) && k <= |input.checkpoints|
    ensures multiset(Traced(input, k))
         == multiset(KeptUpTo(input, k)) + multiset(LateUpTo(WholeRun(input), k)) + multiset(Fold(input, k).deferred)
  {
    if k > 0 {
      var rs, o := input.checkpoints[k - 1], WholeRun(input)[k - 1];
      EventsConserved(input, k - 1);
      EntryConserves(input, k - 1);
      Carry(
        multiset(Traced(input, k - 1)), multiset(KeptUpTo(input, k - 1)), multiset(LateUpTo(WholeRun(input), k - 1)),
        multiset(Fold(input, k - 1).deferred), multiset(EventsOf(rs)), multiset(Kept(input.machine, rs)),
        multiset(LateOf(o.segments)), multiset(Fold(input, k).deferred));
    }
  }

  /** split() leaves nothing once the last checkpoint is there. */
  ghost predicate Empties(m: Machine) {
    forall d :: m.split(d, true).1 == []
  }

  /** At the end nothing waits any more: every event is with its record or in a late segment. */
  lemma {:induction false} NoEventLeft(input: Input)
    requires InputOk(input) && Concatenates(input.machine) && Parts(input.machine) && Empties(input.machine)
    ensures var n := |input.checkpoints|;
      && Fold(input, n).deferred == []
      && multiset(Traced(input, n)) == multiset(KeptUpTo(input, n)) + multiset(LateUpTo(WholeRun(input), n))
  {
    var n := |input.checkpoints|;
    EntryEvents(input, n - 1);
    EventsConserved(input, n);
  }

  // The chain of program counters

  /** Each checkpoint is traced into one record, which starts where the one before ended. */
  ghost predicate Contiguous(input: Input) {
    && AllOnes(Counts(input))
    && forall k :: 0 < k < |input.checkpoints| && input.checkpoints[k] != [] && input.checkpoints[k - 1] != [] ==>
         input.checkpoints[k][0].publicValues.startPc == input.checkpoints[k - 1][0].publicValues.nextPc
  }

  /** All segments of checkpoint k end where its record ends, and the late ones start there. */
  ghost predicate EntryPcs(input: Input, k: nat)
    requires InputOk(input) && k < |input.checkpoints|
  {
    var o, r := WholeRun(input)[k], input.checkpoints[k][0].publicValues;
    && o.segments != [] && ValuesOf(o.segments[0]).startPc == r.startPc
    && forall j :: 0 <= j < |o.segments| ==>
         ValuesOf(o.segments[j]).nextPc == r.nextPc && (j > 0 ==> ValuesOf(o.segments[j]).startPc == r.nextPc)
  }

  lemma {:induction false} EntryPcsHold(input: Input, k: nat)
    requires InputOk(input) && Concatenates(input.machine) && AllOnes(Counts(input)) && k < |input.checkpoints|
    ensures EntryPcs(input, k)
  {
    var o, ready := WholeRun(input)[k], ReadyAt(input, k);
    assert Counts(input)[k] == 1;
    StateSegment(input, k);
    LateSegments(input, k);
    forall j | 0 < j < |o.segments|
      ensures ValuesOf(o.segments[j]).nextPc == LastTraced(input, k).nextPc
      ensures ValuesOf(o.segments[j]).startPc == LastTraced(input, k).nextPc
    {
      assert o.segments[j] == o.segments[1 + (j - 1)];
      assert LateValues(
        ValuesOf(o.segments[1 + (j - 1)]), ready[j - 1].publicValues, LastTraced(input, k), IsLast(input, k),
        Fold(input, k).publicValues.shard + |input.checkpoints[k]| + j);
    }
  }

  ghost predicate PcLink(outs: seq<Outcome>, k: nat, x: nat)
    requires k <= |outs|
  {
    var f, g := FileAt(outs, k, x), FileAt(outs, k, x + 1);
    f.Some? && g.Some? && ValuesOf(g.value).startPc == ValuesOf(f.value).nextPc
  }

  /** The last file so far ends where the last record ends. */
  lemma {:induction false} LastFile(input: Input, k: nat)
    requires InputOk(input) && Concatenates(input.machine) && AllOnes(Counts(input)) && 0 < k <= |input.checkpoints|
    ensures var outs := WholeRun(input);
      && IndexAt(outs, k) > 0
      && FileAt(outs, k, IndexAt(outs, k) - 1).Some?
      && ValuesOf(FileAt(outs, k, IndexAt(outs, k) - 1).value).nextPc == input.checkpoints[k - 1][0].publicValues.nextPc
  {
    RunLinked(input, k - 1);
    EntryPcsHold(input, k - 1);
    assert Counts(input)[k - 1] == 1;
  }

  /** The segment files follow each other: each starts where the one before ends. */
  lemma {:induction false} PcChain(input: Input, k: nat, x: nat)
    requires InputOk(input) && Concatenates(input.machine) && Contiguous(input)
    requires k <= |input.checkpoints| && x + 1 < IndexAt(WholeRun(input), k)
    ensures PcLink(WholeRun(input), k, x)
    decreases k
  {
    var outs := WholeRun(input);
    var index := IndexAt(outs, k - 1);
    RunLinked(input, k - 1);
    EntryPcsHold(input, k - 1);
    assert Counts(input)[k - 1] == 1;
    if x + 1 < index {
      PcChain(input, k - 1, x);
    } else if x + 1 == index {
      LastFile(input, k - 1);
    }
  }
}
