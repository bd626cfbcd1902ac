/** The calls to prover nodes, of all stages at once (prover_client.rs).  One action is one
    critical section of one call, so that any interleaving is a sequence of actions. */
module ProverCalls {
  import opened Receipts
  import opened Tasks
  import opened ProverReplies
  import opened NodePool

  /** The node's status once its call is over. */
  function StatusAfter(reply: Reply, now: nat): NodeStatus {
    if reply.Unreachable? then OffLine(now) else Idle
  }

  datatype TaskKind = Split | Prove | Agg | Snark | SingleNode

  // Scanning: inside get_idle_client, with the nodes still to try.  Counted: past the
  // second quota check.  Returned: the response is there, the counter not yet decreased.
  // Left: decreased, the node not yet given back.
  datatype Pc =
    | Start
    | Scanning(rest: seq<nat>)
    | Connecting(node: nat, rest: seq<nat>)
    | Acquired(node: nat)
    | Counted(node: nat)
    | Calling(node: nat)
    | Returned(node: nat, reply: Reply)
    | Left(node: nat, reply: Reply)
    | Finished(reply: Reply)
    | Abandoned

  // lastNode is the node a prove task failed on.
  datatype Call = Call(stage: nat, kind: TaskKind, lastNode: Option<nat>, pc: Pc)

  // skips (history) counts each stage's same-node skips; lost (history) holds the nodes
  // that single-node calls left behind.
  datatype State = State(shared: Shared, calls: seq<Call>, now: nat, skips: seq<nat>, lost: set<nat>)

  datatype Action =
    | Tick(seconds: nat)
    | Begin(stage: nat, kind: TaskKind, lastNode: Option<nat>)
    | FirstCheck(c: nat, candidates: seq<nat>)
    | TryNode(c: nat)
    | Connect(c: nat, reachable: bool)
    | SecondCheck(c: nat)
    | Submit(c: nat)
    | GiveUp(c: nat)
    | Respond(c: nat, reply: Reply)
    | Decrement(c: nat)
    | Free(c: nat)

  function CallPc(s: State, c: nat): Pc {
    if c < |s.calls| then s.calls[c].pc else Abandoned
  }

  /** get_nodes: the snark node is always the first one. */
  predicate CandidatesOk(s: State, kind: TaskKind, candidates: seq<nat>) {
    && (forall i :: 0 <= i < |candidates| ==> candidates[i] < |s.shared.nodes|)
    && (kind == Snark ==> candidates == [0])
  }

  predicate Enabled(s: State, a: Action) {
    match a
    case Tick(_) => true
    case Begin(stage, _, _) => stage < |s.shared.quotas|
    case FirstCheck(c, candidates) => CallPc(s, c).Start? && CandidatesOk(s, s.calls[c].kind, candidates)
    case TryNode(c) => CallPc(s, c).Scanning?
    case Connect(c, _) => CallPc(s, c).Connecting?
    case SecondCheck(c) => CallPc(s, c).Acquired? && s.calls[c].kind != SingleNode
    case Submit(c) => CallPc(s, c).Counted? || (CallPc(s, c).Acquired? && s.calls[c].kind == SingleNode)
    case GiveUp(c) => CallPc(s, c).Acquired? && s.calls[c].kind == SingleNode
    case Respond(c, reply) => CallPc(s, c).Calling? && (reply.Unreachable? || reply.NoResult? || reply.Answer?)
    case Decrement(c) => CallPc(s, c).Returned? && s.calls[c].kind != SingleNode
    case Free(c) => CallPc(s, c).Left? || (CallPc(s, c).Returned? && s.calls[c].kind == SingleNode)
  }

  function Moved(s: State, c: nat, shared: Shared, pc: Pc): State
    requires c < |s.calls|
  {
    s.(shared := shared, calls := s.calls[c := s.calls[c].(pc := pc)])
  }

  /** Where a call stands after trying the first of its candidates. */
  function AfterTry(s: State, c: nat): State
    requires c < |s.calls| && s.calls[c].pc.Scanning? && Bounds(s)
  {
    var rest, kind := s.calls[c].pc.rest, s.calls[c].kind;
    if rest == [] then Moved(s, c, s.shared, if kind == SingleNode then Start else Finished(NoNode))
    else
      var (shared, taken) := Acquire(s.shared, rest[0], s.now);
      Moved(s, c, shared, if taken then Connecting(rest[0], rest[1..]) else Scanning(rest[1..]))
  }

  function AfterConnect(s: State, c: nat, reachable: bool): State
    requires c < |s.calls| && s.calls[c].pc.Connecting? && Bounds(s)
  {
    var n, rest := s.calls[c].pc.node, s.calls[c].pc.rest;
    if s.shared.connected[n] || reachable
    then Moved(s, c, s.shared.(connected := s.shared.connected[n := true]), Acquired(n))
    else Moved(s, c, SetStatus(s.shared, n, OffLine(s.now)), Scanning(rest))
  }

  function AfterSecondCheck(s: State, c: nat): State
    requires c < |s.calls| && s.calls[c].pc.Acquired? && Bounds(s)
  {
    var n := s.calls[c].pc.node;
    var (shared, entered) := Enter(s.shared, s.calls[c].stage, n);
    Moved(s, c, shared, if entered then Counted(n) else Finished(Refused))
  }

  /** prove gives a node back if the task failed on it before, and keeps the count. */
  function AfterSubmit(s: State, c: nat): State
    requires c < |s.calls| && (s.calls[c].pc.Counted? || s.calls[c].pc.Acquired?) && Bounds(s)
  {
    var call := s.calls[c];
    if call.kind == Prove && call.lastNode == Some(call.pc.node) then
      Moved(s, c, SetStatus(s.shared, call.pc.node, Idle), Finished(Refused))
        .(skips := s.skips[call.stage := s.skips[call.stage] + 1])
    else Moved(s, c, s.shared, Calling(call.pc.node))
  }

  /** The node that a call has set to Busy and not given back. */
  function Owned(pc: Pc): Option<nat> {
    match pc
    case Connecting(n, _) => Some(n)
    case Acquired(n) => Some(n)
    case Counted(n) => Some(n)
    case Calling(n) => Some(n)
    case Returned(n, _) => Some(n)
    case Left(n, _) => Some(n)
    case _ => None
  }

  predicate CallBounds(s: State, c: nat)
    requires c < |s.calls|
  {
    && s.calls[c].stage < |s.shared.quotas|
    && (Owned(s.calls[c].pc).Some? ==> Owned(s.calls[c].pc).value < |s.shared.nodes|)
    && (s.calls[c].pc.Scanning? || s.calls[c].pc.Connecting? ==>
         forall i :: 0 <= i < |s.calls[c].pc.rest| ==> s.calls[c].pc.rest[i] < |s.shared.nodes|)
  }

  predicate Bounds(s: State) {
    && |s.shared.connected| == |s.shared.nodes| && |s.skips| == |s.shared.quotas|
    && forall c {:trigger s.calls[c]} :: 0 <= c < |s.calls| ==> CallBounds(s, c)
  }

  /** A counter is decreased only if it is positive: the source's u32 would underflow. */
  function AfterDecrement(s: State, c: nat): State
    requires c < |s.calls| && s.calls[c].pc.Returned? && Bounds(s)
  {
    var call := s.calls[c];
    if s.shared.quotas[call.stage].count == 0 then s
    else Moved(s, c, AddCount(s.shared, call.stage, -1), Left(call.pc.node, call.pc.reply))
  }

  function Next(s: State, a: Action): State
    requires Bounds(s) && Enabled(s, a)
  {
    match a
    case Tick(seconds) => s.(now := s.now + seconds)
    case Begin(stage, kind, lastNode) => s.(calls := s.calls + [Call(stage, kind, lastNode, Start)])
    case FirstCheck(c, candidates) =>
      Moved(s, c, s.shared,
        if s.calls[c].kind == SingleNode || HasRoom(s.shared, s.calls[c].stage) then Scanning(candidates)
        else Finished(Refused))
    case TryNode(c) => AfterTry(s, c)
    case Connect(c, reachable) => AfterConnect(s, c, reachable)
    case SecondCheck(c) => AfterSecondCheck(s, c)
    case Submit(c) => AfterSubmit(s, c)
    case GiveUp(c) => Moved(s, c, s.shared, Abandoned).(lost := s.lost + {s.calls[c].pc.node})
    case Respond(c, reply) => Moved(s, c, s.shared, Returned(s.calls[c].pc.node, reply))
    case Decrement(c) => AfterDecrement(s, c)
    case Free(c) =>
      var pc := s.calls[c].pc;
      Moved(s, c, SetStatus(s.shared, pc.node, StatusAfter(pc.reply, s.now)), Finished(pc.reply))
  }

  function Init(nodes: nat, limits: seq<nat>): State {
    State(
      Shared(seq(nodes, _ => Idle), seq(nodes, _ => false),
             seq(|limits|, i requires 0 <= i < |limits| => Quota(limits[i], 0))),
      [], 0, seq(|limits|, _ => 0), {})
  }

  /** The state after the given actions; those that are not enabled do nothing. */
  function After(s: State, schedule: seq<Action>): State {
    if schedule == [] then s
    else
      var s1, a := After(s, schedule[..|schedule| - 1]), schedule[|schedule| - 1];
      if Bounds(s1) && Enabled(s1, a) then Next(s1, a) else s1
  }

  // What every step keeps

  /** Is this call counted in stage's cur_prover_num? */
  function Admitted(stage: nat): Call -> bool {
    (c: Call) => c.stage == stage && c.kind != SingleNode && (c.pc.Counted? || c.pc.Calling? || c.pc.Returned?)
  }

  /** Is this a request of the stage that a node is working on? */
  function InFlight(stage: nat): Call -> bool {
    (c: Call) => c.stage == stage && c.kind != SingleNode && c.pc.Calling?
  }

  ghost predicate QuotaOk(s: State, stage: nat)
    requires stage < |s.shared.quotas| == |s.skips|
  {
    && s.shared.quotas[stage].count == CountWhere(s.calls, Admitted(stage)) + s.skips[stage]
    && s.shared.quotas[stage].count <= s.shared.quotas[stage].limit
  }

  ghost predicate OwnsBusy(s: State, c: nat)
    requires c < |s.calls|
  {
    Owned(s.calls[c].pc).Some? ==>
      var n := Owned(s.calls[c].pc).value;
      n < |s.shared.nodes| && s.shared.nodes[n] == NodeStatus.Busy && n !in s.lost
  }

  ghost predicate SameOwned(s: State, c: nat, d: nat)
    requires c < |s.calls| && d < |s.calls|
  {
    Owned(s.calls[c].pc).Some? && Owned(s.calls[c].pc) == Owned(s.calls[d].pc)
  }

  ghost predicate BusyOwned(s: State, n: nat)
    requires n < |s.shared.nodes|
  {
    s.shared.nodes[n] == NodeStatus.Busy ==> n in s.lost || exists c :: 0 <= c < |s.calls| && Owned(s.calls[c].pc) == Some(n)
  }

  /** Single-node calls never reach the pcs of counted calls. */
  ghost predicate KindOk(c: Call) {
    (c.pc.Counted? || c.pc.Left? ==> c.kind != SingleNode)
  }

  ghost predicate CallsOk(s: State) {
    forall c :: 0 <= c < |s.calls| ==> OwnsBusy(s, c) && KindOk(s.calls[c])
  }

  ghost predicate Distinct(s: State) {
    forall c, d :: 0 <= c < |s.calls| && 0 <= d < |s.calls| && SameOwned(s, c, d) ==> c == d
  }

  /** A node that a single-node call left behind stays Busy. */
  ghost predicate LostOk(s: State) {
    forall n :: n in s.lost ==> n < |s.shared.nodes| && s.shared.nodes[n] == NodeStatus.Busy
  }

  ghost predicate Inv(s: State) {
    && Bounds(s)
    && (forall i :: 0 <= i < |s.skips| ==> QuotaOk(s, i))
    && CallsOk(s) && Distinct(s) && LostOk(s)
    && (forall n :: 0 <= n < |s.shared.nodes| ==> BusyOwned(s, n))
  }

  lemma {:induction false} InitInv(nodes: nat, limits: seq<nat>)
    ensures Inv(Init(nodes, limits))
  {
  }

  // Quotas

  lemma {:induction false} CountPositive<T>(xs: seq<T>, i: nat, p: T -> bool)
    requires i < |xs| && p(xs[i])
    ensures CountWhere(xs, p) >= 1
  {
    CountWhereNone(xs, p);
  }

  function One(b: bool): nat {
    if b then 1 else 0
  }

  lemma MovedQuota(s: State, c: nat, shared: Shared, pc: Pc, stage: nat)
    requires c < |s.calls|
    ensures var s1 := Moved(s, c, shared, pc);
      CountWhere(s1.calls, Admitted(stage))
        == CountWhere(s.calls, Admitted(stage)) - One(Admitted(stage)(s.calls[c])) + One(Admitted(stage)(s1.calls[c]))
  {
    CountWhereUpdate(s.calls, c, s.calls[c].(pc := pc), Admitted(stage));
  }

  /** The call an action is about moves, and nothing else changes but the shared part. */
  ghost predicate IsMove(s: State, a: Action, s1: State) {
    && !a.Tick? && !a.Begin? && a.c < |s.calls|
    && s1 == s.(shared := s1.shared, calls := s.calls[a.c := s.calls[a.c].(pc := CallPc(s1, a.c))],
                skips := s1.skips, lost := s1.lost)
  }

  lemma StepIsMove(s: State, a: Action)
    requires Bounds(s) && Enabled(s, a)
    ensures a.Tick? || a.Begin? || IsMove(s, a, Next(s, a))
  {
  }

  /** A stage's counter moves with the admission of the call, or with its skip. */
  lemma {:induction false} QuotaMoves(s: State, a: Action, i: nat)
    requires Bounds(s) && Enabled(s, a) && !a.Tick? && !a.Begin? && i < |s.skips|
    requires KindOk(s.calls[a.c]) && (a.Decrement? ==> s.shared.quotas[s.calls[a.c].stage].count > 0)
    ensures var s1 := Next(s, a);
      && |s1.shared.quotas| == |s1.skips| == |s.skips|
      && s1.shared.quotas[i].limit == s.shared.quotas[i].limit
      && s1.shared.quotas[i].count - s.shared.quotas[i].count
           == One(Admitted(i)(s1.calls[a.c])) - One(Admitted(i)(s.calls[a.c])) + s1.skips[i] - s.skips[i]
      && (s1.shared.quotas[i].count > s.shared.quotas[i].count ==> HasRoom(s.shared, i))
  {
  }

  lemma {:induction false} StepQuota(s: State, a: Action, i: nat)
    requires Bounds(s) && Enabled(s, a) && i < |s.skips| && QuotaOk(s, i)
    requires a.Tick? || a.Begin? || KindOk(s.calls[a.c])
    requires a.Decrement? ==> QuotaOk(s, s.calls[a.c].stage)
    ensures var s1 := Next(s, a); |s1.shared.quotas| == |s1.skips| == |s.skips| && QuotaOk(s1, i)
  {
    var s1 := Next(s, a);
    if a.Begin? {
      CountWhereConcat(s.calls, [s1.calls[|s.calls|]], Admitted(i));
      assert [s1.calls[|s.calls|]][1..] == [];
    } else if !a.Tick? {
      if a.Decrement? {
        CountPositive(s.calls, a.c, Admitted(s.calls[a.c].stage));
      }
      StepIsMove(s, a);
      QuotaMoves(s, a, i);
      MovedQuota(s, a.c, s1.shared, CallPc(s1, a.c), i);
    }
  }

  // Nodes

  lemma {:induction false} StepBounds(s: State, a: Action)
    requires Bounds(s) && Enabled(s, a)
    ensures Bounds(Next(s, a)) && |Next(s, a).shared.nodes| == |s.shared.nodes|
  {
    var s1 := Next(s, a);
    if !a.Tick? && !a.Begin? {
      assert CallBounds(s, a.c);
      StepIsMove(s, a);
    }
    forall d | 0 <= d < |s1.calls|
      ensures CallBounds(s1, d)
    {
      assert d < |s.calls| ==> CallBounds(s, d);
    }
  }

  /** Which node, if any, a step writes to: one that its call owns, or a free one. */
  lemma {:induction false} StepNodes(s: State, a: Action, n: nat)
    requires Bounds(s) && Enabled(s, a) && n < |s.shared.nodes|
    ensures |Next(s, a).shared.nodes| == |s.shared.nodes|
    ensures Next(s, a).shared.nodes[n] != s.shared.nodes[n] ==>
      && !a.Tick? && !a.Begin?
      && (Owned(s.calls[a.c].pc) == Some(n) ||
           (a.TryNode? && Available(s.shared.nodes[n], s.now) && Next(s, a).shared.nodes[n] == NodeStatus.Busy
            && Owned(CallPc(Next(s, a), a.c)) == Some(n)))
  {
  }

  /** How the ownership of the acting call changes. */
  lemma {:induction false} StepOwned(s: State, a: Action)
    requires Bounds(s) && Enabled(s, a) && !a.Tick? && !a.Begin? && OwnsBusy(s, a.c) && KindOk(s.calls[a.c])
    ensures a.c < |Next(s, a).calls|
    ensures var s1, before, after := Next(s, a), Owned(s.calls[a.c].pc), Owned(CallPc(Next(s, a), a.c));
      && KindOk(s1.calls[a.c])
      && (after == before || after.None? || (before.None? && a.TryNode? && after.value < |s.shared.nodes|
           && s.shared.nodes[after.value] != NodeStatus.Busy && s1.shared.nodes[after.value] == NodeStatus.Busy))
      && (after.Some? ==> after.value < |s1.shared.nodes| && s1.shared.nodes[after.value] == NodeStatus.Busy)
      && (before.Some? && after.None? ==>
           before.value in s1.lost || s1.shared.nodes[before.value] != NodeStatus.Busy)
      && (s1.lost == s.lost || (before.Some? && after.None? && s1.lost == s.lost + {before.value}))
  {
    assert CallBounds(s, a.c);
  }

  lemma {:induction false} StepOwnsBusy(s: State, a: Action, d: nat)
    requires Bounds(s) && Enabled(s, a) && CallsOk(s) && Distinct(s) && LostOk(s) && d < |Next(s, a).calls|
    ensures OwnsBusy(Next(s, a), d) && KindOk(Next(s, a).calls[d])
  {
    if d < |s.calls| {
      assert OwnsBusy(s, d) && KindOk(s.calls[d]);
      StepIsMove(s, a);
      if !a.Tick? && !a.Begin? {
        assert OwnsBusy(s, a.c) && KindOk(s.calls[a.c]);
        StepOwned(s, a);
        if d != a.c && Owned(s.calls[d].pc).Some? {
          assert !SameOwned(s, d, a.c);
          StepNodes(s, a, Owned(s.calls[d].pc).value);
        }
      }
    }
  }

  lemma {:induction false} StepDistinct(s: State, a: Action, c: nat, d: nat)
    requires Bounds(s) && Enabled(s, a) && CallsOk(s) && Distinct(s)
    requires c < |Next(s, a).calls| && d < |Next(s, a).calls| && SameOwned(Next(s, a), c, d)
    ensures c == d
  {
    StepIsMove(s, a);
    if !a.Tick? && !a.Begin? {
      assert OwnsBusy(s, a.c) && KindOk(s.calls[a.c]);
      StepOwned(s, a);
      assert OwnsBusy(s, c) && OwnsBusy(s, d);
    }
    assert c < |s.calls| && d < |s.calls| && SameOwned(s, c, d) ==> c == d;
    assert c < |s.calls| && d < |s.calls| && SameOwned(s, d, c) ==> c == d;
  }

  lemma {:induction false} StepLost(s: State, a: Action)
    requires Bounds(s) && Enabled(s, a) && CallsOk(s) && LostOk(s)
    ensures LostOk(Next(s, a))
  {
    forall n | n in Next(s, a).lost
      ensures n < |Next(s, a).shared.nodes| && Next(s, a).shared.nodes[n] == NodeStatus.Busy
    {
      if !a.Tick? && !a.Begin? {
        assert OwnsBusy(s, a.c) && KindOk(s.calls[a.c]);
        StepOwned(s, a);
      }
      if n < |s.shared.nodes| {
        StepNodes(s, a, n);
      }
    }
  }

  lemma {:induction false} StepBusyOwned(s: State, a: Action, n: nat)
    requires Bounds(s) && Enabled(s, a) && CallsOk(s) && n < |s.shared.nodes| && BusyOwned(s, n)
    ensures n < |Next(s, a).shared.nodes| && BusyOwned(Next(s, a), n)
  {
    var s1 := Next(s, a);
    StepNodes(s, a, n);
    StepIsMove(s, a);
    if !a.Tick? && !a.Begin? {
      assert OwnsBusy(s, a.c) && KindOk(s.calls[a.c]);
      StepOwned(s, a);
      assert Owned(s1.calls[a.c].pc) == Some(n) || s1.shared.nodes[n] != NodeStatus.Busy || n in s1.lost
        || s1.shared.nodes[n] == s.shared.nodes[n];
    }
    if s1.shared.nodes[n] == NodeStatus.Busy && s.shared.nodes[n] == NodeStatus.Busy && n !in s.lost {
      var c :| 0 <= c < |s.calls| && Owned(s.calls[c].pc) == Some(n);
      assert a.Tick? || a.Begin? || a.c != c ==> s1.calls[c] == s.calls[c];
    }
  }

  lemma {:induction false} StepInv(s: State, a: Action)
    requires Inv(s) && Enabled(s, a)
    ensures Inv(Next(s, a))
  {
    var s1 := Next(s, a);
    StepBounds(s, a);
    forall i | 0 <= i < |s1.skips|
      ensures QuotaOk(s1, i)
    {
      StepSkips(s, a);
      assert QuotaOk(s, i);
      StepQuota(s, a, i);
    }
    forall c | 0 <= c < |s1.calls|
      ensures OwnsBusy(s1, c) && KindOk(s1.calls[c])
    {
      StepOwnsBusy(s, a, c);
    }
    forall c, d | 0 <= c < |s1.calls| && 0 <= d < |s1.calls| && SameOwned(s1, c, d)
      ensures c == d
    {
      StepDistinct(s, a, c, d);
    }
    StepLost(s, a);
    forall n | 0 <= n < |s1.shared.nodes|
      ensures BusyOwned(s1, n)
    {
      assert BusyOwned(s, n);
      StepBusyOwned(s, a, n);
    }
  }

  /** Skips are never taken back, and a quota's limit is fixed. */
  lemma {:induction false} StepSkips(s: State, a: Action)
    requires Bounds(s) && Enabled(s, a)
    ensures |Next(s, a).skips| == |s.skips| && |Next(s, a).shared.quotas| == |s.shared.quotas|
    ensures forall i :: 0 <= i < |s.skips| ==>
      Next(s, a).skips[i] >= s.skips[i] && Next(s, a).shared.quotas[i].limit == s.shared.quotas[i].limit
  {
  }

  lemma {:induction false} AfterInv(s: State, schedule: seq<Action>)
    requires Inv(s)
    ensures Inv(After(s, schedule))
    decreases |schedule|
  {
    if schedule != [] {
      var before, a := schedule[..|schedule| - 1], schedule[|schedule| - 1];
      AfterInv(s, before);
      if Enabled(After(s, before), a) {
        StepInv(After(s, before), a);
      }
    }
  }

  // Results, over every run from the empty pool

  lemma {:induction false} FewerInFlight(calls: seq<Call>, stage: nat)
    ensures CountWhere(calls, InFlight(stage)) <= CountWhere(calls, Admitted(stage))
  {
    if calls != [] {
      FewerInFlight(calls[1..], stage);
    }
  }

  /** A stage's counter never exceeds max_prover_num and covers every request in flight;
      it counts the admitted calls and, on top, every same-node skip of prove. */
  lemma {:induction false} AdmissionControl(nodes: nat, limits: seq<nat>, schedule: seq<Action>, stage: nat)
    requires stage < |limits|
    ensures var s := After(Init(nodes, limits), schedule);
      && |s.shared.quotas| == |s.skips| == |limits| && s.shared.quotas[stage].limit == limits[stage]
      && CountWhere(s.calls, InFlight(stage)) <= s.shared.quotas[stage].count <= limits[stage]
      && s.shared.quotas[stage].count == CountWhere(s.calls, Admitted(stage)) + s.skips[stage]
  {
    InitInv(nodes, limits);
    AfterInv(Init(nodes, limits), schedule);
    LimitsFixed(nodes, limits, schedule);
    assert QuotaOk(After(Init(nodes, limits), schedule), stage);
    FewerInFlight(After(Init(nodes, limits), schedule).calls, stage);
  }

  lemma {:induction false} LimitsFixed(nodes: nat, limits: seq<nat>, schedule: seq<Action>)
    ensures var s := After(Init(nodes, limits), schedule);
      && |s.shared.quotas| == |s.skips| == |limits|
      && forall i :: 0 <= i < |limits| ==> s.shared.quotas[i].limit == limits[i]
    decreases |schedule|
  {
    if schedule != [] {
      var before, a := schedule[..|schedule| - 1], schedule[|schedule| - 1];
      LimitsFixed(nodes, limits, before);
      InitInv(nodes, limits);
      AfterInv(Init(nodes, limits), before);
      if Enabled(After(Init(nodes, limits), before), a) {
        StepSkips(After(Init(nodes, limits), before), a);
      }
    }
  }

  /** The decrement never underflows. */
  lemma {:induction false} NoUnderflow(nodes: nat, limits: seq<nat>, schedule: seq<Action>, c: nat)
    requires Enabled(After(Init(nodes, limits), schedule), Decrement(c))
    ensures var s := After(Init(nodes, limits), schedule);
      s.calls[c].stage < |s.shared.quotas| && s.shared.quotas[s.calls[c].stage].count > 0
  {
    var s := After(Init(nodes, limits), schedule);
    InitInv(nodes, limits);
    AfterInv(Init(nodes, limits), schedule);
    assert CallBounds(s, c);
    assert QuotaOk(s, s.calls[c].stage);
    CountPositive(s.calls, c, Admitted(s.calls[c].stage));
  }

  /** Among all calls of all stages and kinds, at most one owns a node, and it has set the
      node to Busy; conversely a Busy node has an owner, unless a single-node call left it
      behind. */
  lemma {:induction false} MutualExclusion(nodes: nat, limits: seq<nat>, schedule: seq<Action>)
    ensures var s := After(Init(nodes, limits), schedule);
      && Distinct(s)
      && forall n :: 0 <= n < |s.shared.nodes| ==>
           (s.shared.nodes[n] == NodeStatus.Busy <==>
             n in s.lost || exists c :: 0 <= c < |s.calls| && Owned(s.calls[c].pc) == Some(n))
  {
    var s := After(Init(nodes, limits), schedule);
    InitInv(nodes, limits);
    AfterInv(Init(nodes, limits), schedule);
    forall n | 0 <= n < |s.shared.nodes|
      ensures s.shared.nodes[n] == NodeStatus.Busy <==>
        n in s.lost || exists c :: 0 <= c < |s.calls| && Owned(s.calls[c].pc) == Some(n)
    {
      assert BusyOwned(s, n);
      if c :| 0 <= c < |s.calls| && Owned(s.calls[c].pc) == Some(n) {
        assert OwnsBusy(s, c);
      }
    }
  }

  lemma {:induction false} StepOffline(s: State, a: Action, n: nat, ts: nat)
    requires Inv(s) && Enabled(s, a) && n < |s.shared.nodes| && s.shared.nodes[n] == OffLine(ts)
    ensures n < |Next(s, a).shared.nodes| && Next(s, a).now >= s.now
    ensures Next(s, a).shared.nodes[n] == OffLine(ts) || s.now >= ts + OFFLINE_SECONDS
  {
    StepNodes(s, a, n);
    if !a.Tick? && !a.Begin? {
      assert OwnsBusy(s, a.c);
    }
  }

  /** A node marked offline at ts is left alone for 180 seconds, whatever happens. */
  lemma {:induction false} OfflineRests(s: State, schedule: seq<Action>, n: nat, ts: nat)
    requires Inv(s) && n < |s.shared.nodes| && s.shared.nodes[n] == OffLine(ts)
    ensures var s1 := After(s, schedule);
      && n < |s1.shared.nodes| && s1.now >= s.now
      && (s1.shared.nodes[n] == OffLine(ts) || s1.now >= ts + OFFLINE_SECONDS)
    decreases |schedule|
  {
    if schedule != [] {
      var before, a := schedule[..|schedule| - 1], schedule[|schedule| - 1];
      var s1 := After(s, before);
      OfflineRests(s, before, n, ts);
      AfterInv(s, before);
      if Enabled(s1, a) {
        StepBounds(s1, a);
        TimePasses(s1, a);
        if s1.shared.nodes[n] == OffLine(ts) {
          StepOffline(s1, a, n, ts);
        }
      }
    }
  }

  lemma TimePasses(s: State, a: Action)
    requires Bounds(s) && Enabled(s, a)
    ensures Next(s, a).now >= s.now
  {
  }

  // Starvation

  /** As many skips as the stage may have calls. */
  ghost predicate Starved(s: State, stage: nat) {
    stage < |s.shared.quotas| == |s.skips| && s.skips[stage] == s.shared.quotas[stage].limit
  }

  /** Once prove has skipped max_prover_num times, the stage starves for good: none of its
      calls is admitted any more, and both quota checks refuse. */
  lemma {:induction false} StarvedForever(s: State, schedule: seq<Action>, stage: nat)
    requires Inv(s) && Starved(s, stage)
    ensures Starved(After(s, schedule), stage) && !HasRoom(After(s, schedule).shared, stage)
    ensures CountWhere(After(s, schedule).calls, Admitted(stage)) == 0
    decreases |schedule|
  {
    AfterInv(s, schedule);
    if schedule != [] {
      var before, a := schedule[..|schedule| - 1], schedule[|schedule| - 1];
      StarvedForever(s, before, stage);
      AfterInv(s, before);
      if Enabled(After(s, before), a) {
        StepSkips(After(s, before), a);
        StepInv(After(s, before), a);
      }
    }
    assert QuotaOk(After(s, schedule), stage);
  }

  const FAILURE := Answer(InternalError, "", EMPTY, 0, 0)

  // A segment fails on the only node, and is tried again.
  const RETRY_RUN := [
    Begin(0, Prove, None), FirstCheck(0, [0]), TryNode(0), Connect(0, true), SecondCheck(0), Submit(0),
    Respond(0, FAILURE), Decrement(0), Free(0),
    Begin(0, Prove, Some(0)), FirstCheck(1, [0]), TryNode(1), Connect(1, true), SecondCheck(1), Submit(1)]

  function FirstTry(pc: Pc): Call {
    Call(0, Prove, None, pc)
  }

  function SecondTry(pc: Pc): seq<Call> {
    [FirstTry(Finished(FAILURE)), Call(0, Prove, Some(0), pc)]
  }

  /** The pool of one node and one stage with quota 1. */
  function OneNode(status: NodeStatus, connected: bool, count: nat, calls: seq<Call>): State {
    State(Shared([status], [connected], [Quota(1, count)]), calls, 0, [0], {})
  }

  /** The state after k actions of the retry run. */
  function RetryAfter(k: nat): State
    requires k <= 15
  {
    match k
    case 0 => Init(1, [1])
    case 1 => OneNode(Idle, false, 0, [FirstTry(Start)])
    case 2 => OneNode(Idle, false, 0, [FirstTry(Scanning([0]))])
    case 3 => OneNode(NodeStatus.Busy, false, 0, [FirstTry(Connecting(0, []))])
    case 4 => OneNode(NodeStatus.Busy, true, 0, [FirstTry(Acquired(0))])
    case 5 => OneNode(NodeStatus.Busy, true, 1, [FirstTry(Counted(0))])
    case 6 => OneNode(NodeStatus.Busy, true, 1, [FirstTry(Calling(0))])
    case 7 => OneNode(NodeStatus.Busy, true, 1, [FirstTry(Returned(0, FAILURE))])
    case 8 => OneNode(NodeStatus.Busy, true, 0, [FirstTry(Left(0, FAILURE))])
    case 9 => OneNode(Idle, true, 0, [FirstTry(Finished(FAILURE))])
    case 10 => OneNode(Idle, true, 0, SecondTry(Start))
    case 11 => OneNode(Idle, true, 0, SecondTry(Scanning([0])))
    case 12 => OneNode(NodeStatus.Busy, true, 0, SecondTry(Connecting(0, [])))
    case 13 => OneNode(NodeStatus.Busy, true, 0, SecondTry(Acquired(0)))
    case 14 => OneNode(NodeStatus.Busy, true, 1, SecondTry(Counted(0)))
    case _ => OneNode(Idle, true, 1, SecondTry(Finished(Refused))).(skips := [1])
  }

  lemma FirstTryStep(k: nat)
    requires k < 9
    ensures Bounds(RetryAfter(k)) && Enabled(RetryAfter(k), RETRY_RUN[k])
    ensures Next(RetryAfter(k), RETRY_RUN[k]) == RetryAfter(k + 1)
  {
    assert [0 as nat][1..] == [];
  }

  lemma SecondTryStep(k: nat)
    requires 9 <= k < 15
    ensures Bounds(RetryAfter(k)) && Enabled(RetryAfter(k), RETRY_RUN[k])
    ensures Next(RetryAfter(k), RETRY_RUN[k]) == RetryAfter(k + 1)
  {
    assert [0 as nat][1..] == [];
  }

  lemma {:induction false} RetryRuns(k: nat)
    requires k <= 15
    ensures After(RetryAfter(0), RETRY_RUN[..k]) == RetryAfter(k)
  {
    if k == 0 {
      assert RETRY_RUN[..0] == [];
    } else {
      RetryRuns(k - 1);
      if k <= 9 {
        FirstTryStep(k - 1);
      } else {
        SecondTryStep(k - 1);
      }
      assert RETRY_RUN[..k][..k - 1] == RETRY_RUN[..k - 1];
    }
  }

  /** It takes one failed segment and one node: with max_prover_num 1, the retry finds the
      node it failed on, is skipped, and starves the stage. */
  lemma {:induction false} OneSkipStarves()
    ensures Starved(After(Init(1, [1]), RETRY_RUN), 0)
  {
    RetryRuns(15);
    assert RETRY_RUN[..15] == RETRY_RUN;
  }

  /** A stage without admitted calls has room exactly as long as fewer calls were skipped
      than it may have. */
  lemma {:induction false} RoomUnlessSkipped(nodes: nat, limits: seq<nat>, schedule: seq<Action>, stage: nat)
    requires stage < |limits| && CountWhere(After(Init(nodes, limits), schedule).calls, Admitted(stage)) == 0
    ensures var s := After(Init(nodes, limits), schedule);
      stage < |s.shared.quotas| == |s.skips| && (HasRoom(s.shared, stage) <==> s.skips[stage] < limits[stage])
  {
    AdmissionControl(nodes, limits, schedule, stage);
  }
}
