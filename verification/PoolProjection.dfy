/** The pool of all stages and the loop of one of them, side by side: what the pool does with
    the stage's calls is, move by move, what the loop's own account of its quota allows. */
module PoolProjection {
  import opened Tasks
  import opened ProverReplies
  import opened StageSpec
  import opened WorkerSpec
  import opened WorkerInvariant
  import opened QuotaSpec
  import opened QuotaInvariant
  import P = ProverCalls

  // Which of the pool's stages is meant, and how its nodes are called.
  datatype Binding = Binding(stage: nat, names: seq<string>)

  // ids: the loop's identifier of each call of the pool that it waits for.
  datatype Joint = Joint(pool: P.State, system: System, ids: map<nat, CallId>)

  datatype JointMove =
    | PoolMove(a: P.Action)
    | BeginCall(d: CallId, lastNode: Option<nat>)
    | LoopMove(m: Move)

  function Name(b: Binding, n: nat): string {
    if n < |b.names| then b.names[n] else ""
  }

  ghost predicate NamesOk(b: Binding) {
    && (forall n :: 0 <= n < |b.names| ==> b.names[n] != "")
    && forall n, m :: 0 <= n < m < |b.names| ==> b.names[n] != b.names[m]
  }

  function KindOf(t: Task): P.TaskKind {
    match t
    case SplitCall(_) => P.Split
    case ProveCall(_) => P.Prove
    case AggCall(_) => P.Agg
    case SnarkCall(_) => P.Snark
  }

  /** What the loop's account makes of a program counter: a call is counted until it has taken
      itself off the counter again, and over from then on. */
  function PhaseOf(b: Binding, pc: P.Pc): Phase {
    match pc
    case Start => Waiting
    case Scanning(_) => Looking
    case Connecting(_, _) => Looking
    case Acquired(_) => Looking
    case Counted(n) => Counted(Name(b, n))
    case Calling(n) => Counted(Name(b, n))
    case Returned(n, _) => Counted(Name(b, n))
    case Left(_, r) => Over(r)
    case Finished(r) => Over(r)
    case Abandoned => Over(NoNode)
  }

  predicate Ours(b: Binding, call: P.Call) {
    call.stage == b.stage && call.kind != P.SingleNode
  }

  /** The node that the task failed on, if the pool still knows it. */
  ghost predicate LastFits(b: Binding, t: Task, kind: P.TaskKind, lastNode: Option<nat>) {
    forall n :: 0 <= n < |b.names| ==> (SameNode(t, b.names[n]) <==> kind == P.Prove && lastNode == Some(n))
  }

  predicate Skips(call: P.Call, n: nat) {
    call.kind == P.Prove && call.lastNode == Some(n)
  }

  /** A call that is past submission was not skipped, and what it returned is an answer. */
  predicate PcFits(b: Binding, job: Job, call: P.Call) {
    match call.pc
    case Calling(n) => !Skips(call, n)
    case Returned(n, r) => !Skips(call, n) && ReplyFits(job, Name(b, n), r)
    case _ => true
  }

  ghost predicate CallFits(b: Binding, job: Job, pool: P.State, s: System, c: nat, d: CallId) {
    && c < |pool.calls| && Ours(b, pool.calls[c]) && d in s.phases && d in s.worker.calls
    && s.phases[d] == PhaseOf(b, pool.calls[c].pc) && pool.calls[c].kind == KindOf(s.worker.calls[d])
    && LastFits(b, s.worker.calls[d], pool.calls[c].kind, pool.calls[c].lastNode)
    && PcFits(b, job, pool.calls[c])
  }

  ghost predicate CountsFit(b: Binding, pool: P.State, s: System) {
    && b.stage < |pool.shared.quotas| == |pool.skips| && |b.names| == |pool.shared.nodes| && NamesOk(b)
    && s.count == pool.shared.quotas[b.stage].count && Limit(s) == pool.shared.quotas[b.stage].limit
    && s.skips == pool.skips[b.stage]
  }

  ghost predicate AllListed(b: Binding, j: Joint) {
    forall c :: 0 <= c < |j.pool.calls| && Ours(b, j.pool.calls[c]) && !j.pool.calls[c].pc.Finished? ==> c in j.ids
  }

  ghost predicate Represents(b: Binding, job: Job, j: Joint) {
    && P.Inv(j.pool) && CountsFit(b, j.pool, j.system)
    && (forall c :: c in j.ids ==> CallFits(b, job, j.pool, j.system, c, j.ids[c]))
    && (forall c, d :: c in j.ids && d in j.ids && j.ids[c] == j.ids[d] ==> c == d)
    && AllListed(b, j) && OthersWait(j.system, j.ids)
  }

  /** Calls that the pool has not begun wait for their first check. */
  ghost predicate OthersWait(s: System, ids: map<nat, CallId>) {
    forall d :: d in s.phases && d !in ids.Values ==> s.phases[d].Waiting?
  }

  /** The move of the loop's account that an action of the pool amounts to, if any. */
  function MoveOf(b: Binding, pool: P.State, ids: map<nat, CallId>, a: P.Action): Option<Move> {
    match a
    case FirstCheck(c, _) => if c in ids then Some(Move.FirstCheck(ids[c])) else None
    case TryNode(c) =>
      if c in ids && P.CallPc(pool, c).Scanning? && P.CallPc(pool, c).rest == [] then Some(NoIdleNode(ids[c])) else None
    case SecondCheck(c) =>
      if c in ids && P.CallPc(pool, c).Acquired? then Some(Move.SecondCheck(ids[c], Name(b, P.CallPc(pool, c).node)))
      else None
    case Submit(c) =>
      if c in ids && P.CallPc(pool, c).Counted? && Skips(pool.calls[c], P.CallPc(pool, c).node)
      then Some(SkipNode(ids[c])) else None
    case Decrement(c) =>
      if c in ids && P.CallPc(pool, c).Returned? then Some(Move.Respond(ids[c], P.CallPc(pool, c).reply)) else None
    case _ => None
  }

  ghost predicate JointEnabled(b: Binding, job: Job, j: Joint, m: JointMove) {
    match m
    case PoolMove(a) =>
      && P.Enabled(j.pool, a)
      && !(a.Begin? && Ours(b, P.Call(a.stage, a.kind, a.lastNode, P.Start)))
      && (a.Respond? && a.c in j.ids ==> ReplyFits(job, Name(b, P.CallPc(j.pool, a.c).node), a.reply))
    case BeginCall(d, lastNode) =>
      && InPhase(j.system, d) && d !in j.ids.Values
      && LastFits(b, j.system.worker.calls[d], KindOf(j.system.worker.calls[d]), lastNode)
    case LoopMove(m) =>
      && (m.HandOut? || m.EndTurn?) && Enabled(job, j.system, m)
      && forall c :: c in j.ids && m.EndTurn? && m.event.delivery.Some? && m.event.delivery.value.call == j.ids[c] ==>
           P.CallPc(j.pool, c).Finished?
  }

  function StillCalled(ids: map<nat, CallId>, w: Worker): map<nat, CallId> {
    map c | c in ids && ids[c] in w.calls :: ids[c]
  }

  ghost function JointNext(b: Binding, job: Job, j: Joint, m: JointMove): Joint
    requires P.Bounds(j.pool) && b.stage < |j.pool.shared.quotas| && JointEnabled(b, job, j, m)
  {
    match m
    case PoolMove(a) =>
      var move := MoveOf(b, j.pool, j.ids, a);
      j.(pool := P.Next(j.pool, a), system := if move.Some? then Next(j.system, move.value) else j.system)
    case BeginCall(d, lastNode) =>
      var a := P.Begin(b.stage, KindOf(j.system.worker.calls[d]), lastNode);
      j.(pool := P.Next(j.pool, a), ids := j.ids[|j.pool.calls| := d])
    case LoopMove(m) =>
      var s := Next(j.system, m);
      j.(system := s, ids := StillCalled(j.ids, s.worker))
  }

  // The pool moves

  /** One call moves in both accounts. */
  lemma {:induction false} CallMoves(b: Binding, job: Job, j: Joint, j1: Joint, c: nat, pc: P.Pc)
    requires Represents(b, job, j) && c in j.ids && P.Inv(j1.pool) && CountsFit(b, j1.pool, j1.system)
    requires j1.ids == j.ids && j1.pool.calls == j.pool.calls[c := j.pool.calls[c].(pc := pc)]
    requires j1.system.worker == j.system.worker && PcFits(b, job, j.pool.calls[c].(pc := pc))
    requires j1.system.phases == j.system.phases[j.ids[c] := PhaseOf(b, pc)]
    ensures Represents(b, job, j1)
  {
    forall d | d in j.ids
      ensures CallFits(b, job, j1.pool, j1.system, d, j.ids[d])
    {
      assert CallFits(b, job, j.pool, j.system, d, j.ids[d]);
    }
  }

  /** A call that is not ours moves, and nothing that concerns us. */
  lemma {:induction false} OthersMove(b: Binding, job: Job, j: Joint, j1: Joint)
    requires Represents(b, job, j) && P.Inv(j1.pool) && CountsFit(b, j1.pool, j1.system)
    requires j1.ids == j.ids && j1.system == j.system && |j1.pool.calls| >= |j.pool.calls|
    requires forall c :: c in j.ids ==> c < |j.pool.calls| && j1.pool.calls[c] == j.pool.calls[c]
    requires AllListed(b, j1)
    ensures Represents(b, job, j1)
  {
    forall d | d in j.ids
      ensures CallFits(b, job, j1.pool, j1.system, d, j.ids[d])
    {
      assert CallFits(b, job, j.pool, j.system, d, j.ids[d]);
    }
  }

  lemma {:induction false} PositiveCount(pool: P.State, c: nat)
    requires P.Inv(pool) && P.Enabled(pool, P.Decrement(c))
    ensures c < |pool.calls| && pool.calls[c].stage < |pool.shared.quotas|
    ensures pool.shared.quotas[pool.calls[c].stage].count > 0
  {
    assert P.CallBounds(pool, c);
    assert P.QuotaOk(pool, pool.calls[c].stage);
    P.CountPositive(pool.calls, c, P.Admitted(pool.calls[c].stage));
  }

  ghost predicate CallAction(b: Binding, job: Job, j: Joint, a: P.Action) {
    && Represents(b, job, j) && JointEnabled(b, job, j, PoolMove(a)) && !a.Tick? && !a.Begin?
    && a.c < |j.pool.calls|
  }

  /** What Represents says about the call that an action moves. */
  ghost predicate OurAction(b: Binding, job: Job, j: Joint, a: P.Action) {
    && !a.Tick? && !a.Begin? && a.c in j.ids && CallFits(b, job, j.pool, j.system, a.c, j.ids[a.c])
    && P.Bounds(j.pool) && P.CallBounds(j.pool, a.c) && P.KindOk(j.pool.calls[a.c])
    && CountsFit(b, j.pool, j.system) && JointEnabled(b, job, j, PoolMove(a))
    && (a.Decrement? ==> j.pool.shared.quotas[b.stage].count > 0)
  }

  lemma {:induction false} OurActionIs(b: Binding, job: Job, j: Joint, a: P.Action)
    requires CallAction(b, job, j, a) && a.c in j.ids
    ensures OurAction(b, job, j, a)
  {
    assert CallFits(b, job, j.pool, j.system, a.c, j.ids[a.c]);
    assert P.CallBounds(j.pool, a.c);
    assert P.KindOk(j.pool.calls[a.c]);
    if a.Decrement? {
      PositiveCount(j.pool, a.c);
    }
  }

  lemma {:induction false} OurMoveEnabled(b: Binding, job: Job, j: Joint, a: P.Action)
    requires OurAction(b, job, j, a) && MoveOf(b, j.pool, j.ids, a).Some?
    ensures Enabled(job, j.system, MoveOf(b, j.pool, j.ids, a).value)
  {
  }

  /** The program counter and the phase after an action on one of our calls. */
  ghost predicate PhaseMoves(b: Binding, job: Job, j: Joint, j1: Joint, c: nat)
    requires c < |j.pool.calls| && c in j.ids
  {
    var call := j.pool.calls[c].(pc := P.CallPc(j1.pool, c));
    && PcFits(b, job, call) && j1.system.worker == j.system.worker
    && j1.system.phases == j.system.phases[j.ids[c] := PhaseOf(b, call.pc)]
  }

  /** Up to the second check. */
  lemma {:induction false} EarlyPhase(b: Binding, job: Job, j: Joint, a: P.Action)
    requires OurAction(b, job, j, a) && (a.FirstCheck? || a.TryNode? || a.Connect?)
    ensures PhaseMoves(b, job, j, JointNext(b, job, j, PoolMove(a)), a.c)
  {
  }

  lemma {:induction false} AdmittedPhase(b: Binding, job: Job, j: Joint, a: P.Action)
    requires OurAction(b, job, j, a) && (a.SecondCheck? || a.Submit? || a.GiveUp?)
    ensures PhaseMoves(b, job, j, JointNext(b, job, j, PoolMove(a)), a.c)
  {
  }

  lemma {:induction false} LatePhase(b: Binding, job: Job, j: Joint, a: P.Action)
    requires OurAction(b, job, j, a) && (a.Respond? || a.Decrement? || a.Free?)
    ensures PhaseMoves(b, job, j, JointNext(b, job, j, PoolMove(a)), a.c)
  {
  }

  lemma {:induction false} OurCounts(b: Binding, job: Job, j: Joint, a: P.Action)
    requires OurAction(b, job, j, a)
    ensures CountsFit(b, P.Next(j.pool, a), JointNext(b, job, j, PoolMove(a)).system)
  {
  }

  lemma {:induction false} OurMove(b: Binding, job: Job, j: Joint, a: P.Action)
    requires CallAction(b, job, j, a) && a.c in j.ids
    ensures Represents(b, job, JointNext(b, job, j, PoolMove(a)))
  {
    OurActionIs(b, job, j, a);
    if a.FirstCheck? || a.TryNode? || a.Connect? {
      EarlyPhase(b, job, j, a);
    } else if a.SecondCheck? || a.Submit? || a.GiveUp? {
      AdmittedPhase(b, job, j, a);
    } else {
      LatePhase(b, job, j, a);
    }
    OurCounts(b, job, j, a);
    P.StepInv(j.pool, a);
    P.StepIsMove(j.pool, a);
    CallMoves(b, job, j, JointNext(b, job, j, PoolMove(a)), a.c, P.CallPc(P.Next(j.pool, a), a.c));
  }

  lemma {:induction false} OtherCounts(b: Binding, job: Job, j: Joint, a: P.Action)
    requires CallAction(b, job, j, a) && a.c !in j.ids
    ensures !Ours(b, j.pool.calls[a.c]) && CountsFit(b, P.Next(j.pool, a), j.system)
  {
    assert P.CallBounds(j.pool, a.c);
    assert P.KindOk(j.pool.calls[a.c]);
    P.StepBounds(j.pool, a);
  }

  lemma {:induction false} OtherMove(b: Binding, job: Job, j: Joint, a: P.Action)
    requires CallAction(b, job, j, a) && a.c !in j.ids
    ensures MoveOf(b, j.pool, j.ids, a).None? && Represents(b, job, JointNext(b, job, j, PoolMove(a)))
  {
    OtherCounts(b, job, j, a);
    P.StepInv(j.pool, a);
    P.StepIsMove(j.pool, a);
    forall c | c in j.ids
      ensures c < |j.pool.calls|
    {
      assert CallFits(b, job, j.pool, j.system, c, j.ids[c]);
    }
    OthersMove(b, job, j, JointNext(b, job, j, PoolMove(a)));
  }

  /** Time passes, or a call begins that is not ours. */
  lemma {:induction false} OutsideMove(b: Binding, job: Job, j: Joint, a: P.Action)
    requires Represents(b, job, j) && JointEnabled(b, job, j, PoolMove(a)) && (a.Tick? || a.Begin?)
    ensures MoveOf(b, j.pool, j.ids, a).None? && Represents(b, job, JointNext(b, job, j, PoolMove(a)))
  {
    P.StepInv(j.pool, a);
    forall c | c in j.ids
      ensures c < |j.pool.calls|
    {
      assert CallFits(b, job, j.pool, j.system, c, j.ids[c]);
    }
    OthersMove(b, job, j, JointNext(b, job, j, PoolMove(a)));
  }

  /** Every action of the pool is a move of the loop's account, or none of its business. */
  lemma {:induction false} PoolMoveFits(b: Binding, job: Job, j: Joint, a: P.Action)
    requires Represents(b, job, j) && JointEnabled(b, job, j, PoolMove(a))
    ensures MoveOf(b, j.pool, j.ids, a).Some? ==> Enabled(job, j.system, MoveOf(b, j.pool, j.ids, a).value)
    ensures Represents(b, job, JointNext(b, job, j, PoolMove(a)))
  {
    if a.Tick? || a.Begin? {
      OutsideMove(b, job, j, a);
    } else if a.c in j.ids {
      assert CallFits(b, job, j.pool, j.system, a.c, j.ids[a.c]);
      OurMove(b, job, j, a);
      if MoveOf(b, j.pool, j.ids, a).Some? {
        OurActionIs(b, job, j, a);
        OurMoveEnabled(b, job, j, a);
      }
    } else {
      OtherMove(b, job, j, a);
    }
  }

  // Calls begin

  lemma {:induction false} BeginFits(b: Binding, job: Job, j: Joint, d: CallId, lastNode: Option<nat>)
    requires Represents(b, job, j) && JointEnabled(b, job, j, BeginCall(d, lastNode))
    ensures Represents(b, job, JointNext(b, job, j, BeginCall(d, lastNode)))
  {
    var a := P.Begin(b.stage, KindOf(j.system.worker.calls[d]), lastNode);
    var j1, n := JointNext(b, job, j, BeginCall(d, lastNode)), |j.pool.calls|;
    P.StepInv(j.pool, a);
    forall c | c in j.ids
      ensures c < n && CallFits(b, job, j1.pool, j1.system, c, j.ids[c])
    {
      assert CallFits(b, job, j.pool, j.system, c, j.ids[c]);
    }
    assert n !in j.ids;
    forall e | e in j.ids.Values
      ensures e in j1.ids.Values
    {
      var c :| c in j.ids && j.ids[c] == e;
      assert j1.ids[c] == e;
    }
    assert j1.ids[n] == d;
  }

  // The loop moves

  /** The calls that are left stand as they stood, and the new ones wait. */
  ghost predicate CallsStand(s: System, s1: System) {
    && s1.phases.Keys == s1.worker.calls.Keys && s1.count == s.count && s1.skips == s.skips && Limit(s1) == Limit(s)
    && forall d :: d in s1.phases ==>
         if InPhase(s, d) then s1.phases[d] == s.phases[d] && s1.worker.calls[d] == s.worker.calls[d]
         else s1.phases[d].Waiting?
  }

  lemma {:induction false} StandingFits(b: Binding, job: Job, j: Joint, s1: System)
    requires Represents(b, job, j) && CallsStand(j.system, s1)
    requires forall c :: c in j.ids && j.ids[c] !in s1.worker.calls ==> P.CallPc(j.pool, c).Finished?
    ensures Represents(b, job, j.(system := s1, ids := StillCalled(j.ids, s1.worker)))
  {
    var ids1 := StillCalled(j.ids, s1.worker);
    forall c | c in ids1
      ensures CallFits(b, job, j.pool, s1, c, ids1[c])
    {
      assert CallFits(b, job, j.pool, j.system, c, j.ids[c]);
    }
    forall d | d in s1.phases && d in j.ids.Values
      ensures d in ids1.Values
    {
      var c :| c in j.ids && j.ids[c] == d;
      assert ids1[c] == d;
    }
  }

  ghost predicate EndsAt(q: QuotaRun, job: Job, gen: GenerateTask, s: System) {
    IsQuotaRun(q) && q.job == job && q.gen == gen && q.states[|q.moves|] == s
  }

  function Longer(q: QuotaRun, m: Move): QuotaRun
    requires |q.states| > |q.moves|
  {
    q.(moves := q.moves + [m], states := q.states + [Next(q.states[|q.moves|], m)])
  }

  lemma {:induction false} LongerRuns(q: QuotaRun, job: Job, gen: GenerateTask, s: System, m: Move)
    requires EndsAt(q, job, gen, s) && Enabled(job, s, m)
    ensures EndsAt(Longer(q, m), job, gen, Next(s, m))
  {
    var q1 := Longer(q, m);
    forall k | 0 <= k < |q1.states|
      ensures MovesOn(q1, k)
    {
      assert k < |q.states| ==> MovesOn(q, k);
    }
  }

  lemma {:induction false} HandOutGrows(q: QuotaRun, k: nat)
    requires HandsOut(q, k)
    ensures CallsGrow(q.states[k].worker, q.states[k + 1].worker)
    ensures q.states[k].phases.Keys == q.states[k].worker.calls.Keys
  {
    assert MovesOn(q, k + 1);
    QuotaInv(q, k);
    SpawnGrows(q.states[k].worker, q.moves[k].event, q.job);
  }

  lemma GrownStands(s: System, s1: System)
    requires CallsGrow(s.worker, s1.worker) && s.phases.Keys == s.worker.calls.Keys
    requires s1.phases == PhasesOf(s.phases, s1.worker.calls)
    requires s1.count == s.count && s1.skips == s.skips && Limit(s1) == Limit(s)
    ensures CallsStand(s, s1)
  {
  }

  lemma {:induction false} HandOutStands(q: QuotaRun, k: nat)
    requires HandsOut(q, k)
    ensures CallsStand(q.states[k], q.states[k + 1]) && CallsGrow(q.states[k].worker, q.states[k + 1].worker)
  {
    HandOutGrows(q, k);
    SameGen(q, k + 1);
    assert MovesOn(q, k + 1);
    GrownStands(q.states[k], q.states[k + 1]);
  }

  lemma {:induction false} EndTurnStands(q: QuotaRun, k: nat)
    requires EndsTurn(q, k)
    ensures CallsStand(q.states[k], q.states[k + 1])
    ensures CallsLeft(q.states[k], q.states[k + 1], q.moves[k].event.delivery)
  {
    assert MovesOn(q, k + 1);
    QuotaInv(q, k + 1);
    SameGen(q, k + 1);
    EndTurnCalls(q, k);
  }

  lemma {:induction false} LoopMoveFits(b: Binding, j: Joint, q: QuotaRun, job: Job, gen: GenerateTask, m: Move)
    requires Represents(b, job, j) && JointEnabled(b, job, j, LoopMove(m)) && EndsAt(q, job, gen, j.system)
    ensures Represents(b, job, JointNext(b, job, j, LoopMove(m)))
  {
    var q1, k := Longer(q, m), |q.moves|;
    LongerRuns(q, job, gen, j.system, m);
    forall c | c in j.ids
      ensures j.ids[c] in j.system.worker.calls
    {
      assert CallFits(b, job, j.pool, j.system, c, j.ids[c]);
    }
    if m.HandOut? {
      HandOutStands(q1, k);
    } else {
      EndTurnStands(q1, k);
    }
    StandingFits(b, job, j, Next(j.system, m));
  }

  // Whole runs

  /** The loop starts, and the pool has no calls yet. */
  function JointInit(b: Binding, gen: GenerateTask, limits: seq<nat>): Joint {
    Joint(P.Init(|b.names|, limits), Begin(gen), map[])
  }

  /** The joint state after the given moves; those that are not possible do nothing. */
  ghost function JointAfter(b: Binding, job: Job, j: Joint, moves: seq<JointMove>): Joint {
    if moves == [] then j
    else
      var j1, m := JointAfter(b, job, j, moves[..|moves| - 1]), moves[|moves| - 1];
      if P.Bounds(j1.pool) && b.stage < |j1.pool.shared.quotas| && JointEnabled(b, job, j1, m)
      then JointNext(b, job, j1, m) else j1
  }

  ghost predicate Projects(b: Binding, job: Job, gen: GenerateTask, j: Joint) {
    Represents(b, job, j) && exists q :: EndsAt(q, job, gen, j.system)
  }

  lemma {:induction false} InitProjects(b: Binding, job: Job, gen: GenerateTask, limits: seq<nat>)
    requires RequestOk(gen) && NamesOk(b) && b.stage < |limits| && limits[b.stage] == gen.maxProverNum
    ensures Projects(b, job, gen, JointInit(b, gen, limits))
  {
    var q := QuotaRun(job, gen, [], [Begin(gen)]);
    P.InitInv(|b.names|, limits);
    assert MovesOn(q, 0);
    assert EndsAt(q, job, gen, Begin(gen));
  }

  lemma {:induction false} StepProjects(b: Binding, job: Job, gen: GenerateTask, j: Joint, m: JointMove)
    requires Projects(b, job, gen, j) && JointEnabled(b, job, j, m)
    ensures Projects(b, job, gen, JointNext(b, job, j, m))
  {
    var q :| EndsAt(q, job, gen, j.system);
    match m
    case PoolMove(a) =>
      PoolMoveFits(b, job, j, a);
      var move := MoveOf(b, j.pool, j.ids, a);
      if move.Some? {
        LongerRuns(q, job, gen, j.system, move.value);
      }
    case BeginCall(d, lastNode) => BeginFits(b, job, j, d, lastNode);
    case LoopMove(m1) =>
      LoopMoveFits(b, j, q, job, gen, m1);
      LongerRuns(q, job, gen, j.system, m1);
  }

  /** Whatever the pool does, for whichever stages, and whenever the loop hands out and
      receives: to the loop it is one of its runs under the quota. */
  lemma {:induction false} PoolMakesQuotaRun(
    b: Binding, job: Job, gen: GenerateTask, limits: seq<nat>, moves: seq<JointMove>)
    requires RequestOk(gen) && NamesOk(b) && b.stage < |limits| && limits[b.stage] == gen.maxProverNum
    ensures Projects(b, job, gen, JointAfter(b, job, JointInit(b, gen, limits), moves))
    decreases |moves|
  {
    if moves == [] {
      InitProjects(b, job, gen, limits);
    } else {
      var j1, m := JointAfter(b, job, JointInit(b, gen, limits), moves[..|moves| - 1]), moves[|moves| - 1];
      PoolMakesQuotaRun(b, job, gen, limits, moves[..|moves| - 1]);
      if JointEnabled(b, job, j1, m) {
        StepProjects(b, job, gen, j1, m);
      }
    }
  }
}
