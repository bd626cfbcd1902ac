/** What becomes of the nodes: when a call may take one, how each of its steps leaves it, and
    that an offline node comes back. */
module PoolNodes {
  import opened Tasks
  import opened ProverReplies
  import opened NodePool
  import opened ProverCalls

  /** A node that may be given to a call: idle, or offline for three minutes at least. */
  predicate MayTake(status: NodeStatus, now: nat) {
    status == Idle || (status.OffLine? && now >= status.ts + 180)
  }

  /** A call is about to try node n. */
  predicate Tries(s: State, a: Action, n: nat) {
    a.TryNode? && CallPc(s, a.c).Scanning? && CallPc(s, a.c).rest != [] && CallPc(s, a.c).rest[0] == n
  }

  /** In every reachable state: a call takes the node it tries if and only if it may; a node that
      was offline is then not connected; otherwise the call goes on to the next candidate. */
  lemma {:induction false} TriedNode(s: State, a: Action, n: nat)
    requires Inv(s) && Enabled(s, a) && Tries(s, a, n)
    ensures n < |s.shared.nodes| == |s.shared.connected|
    ensures var s1, rest := Next(s, a), CallPc(s, a.c).rest[1..];
      if MayTake(s.shared.nodes[n], s.now) then
        && CallPc(s1, a.c) == Connecting(n, rest)
        && s1.shared.nodes == s.shared.nodes[n := NodeStatus.Busy]
        && s1.shared.connected == s.shared.connected[n := s.shared.connected[n] && !s.shared.nodes[n].OffLine?]
      else
        CallPc(s1, a.c) == Scanning(rest) && s1.shared == s.shared
  {
    assert CallBounds(s, a.c);
    var connected := s.shared.connected;
    assert connected[n := connected[n]] == connected;
  }

  /** With no candidate left, a call ends without a node; a single-node call starts again. */
  lemma {:induction false} NoCandidateLeft(s: State, c: nat)
    requires Inv(s) && Enabled(s, TryNode(c)) && CallPc(s, c) == Scanning([])
    ensures var s1 := Next(s, TryNode(c));
      && s1.shared == s.shared
      && CallPc(s1, c) == if s.calls[c].kind == SingleNode then Start else Finished(NoNode)
  {
  }

  /** A connection that is there, or can be made, gives the call its node; if it fails, the node
      is offline from now on and the call tries the others. */
  lemma {:induction false} Connected(s: State, c: nat, reachable: bool)
    requires Inv(s) && Enabled(s, Connect(c, reachable))
    ensures CallPc(s, c).node < |s.shared.nodes| == |s.shared.connected|
    ensures var s1, n := Next(s, Connect(c, reachable)), CallPc(s, c).node;
      if s.shared.connected[n] || reachable then
        && CallPc(s1, c) == Acquired(n) && s1.shared.nodes == s.shared.nodes
        && s1.shared.connected == s.shared.connected[n := true]
      else
        && CallPc(s1, c) == Scanning(CallPc(s, c).rest) && s1.shared.connected == s.shared.connected
        && s1.shared.nodes == s.shared.nodes[n := OffLine(s.now)]
  {
    assert CallBounds(s, c);
  }

  /** The status in which an action leaves the node of its call, if it changes it: busy when
      taken, offline when it could not be reached, idle when given back. */
  function Leaves(s: State, a: Action): Option<NodeStatus> {
    var pc := if a.Tick? || a.Begin? then Abandoned else CallPc(s, a.c);
    match a
    case TryNode(_) =>
      if pc.Scanning? && pc.rest != [] && pc.rest[0] < |s.shared.nodes| && MayTake(s.shared.nodes[pc.rest[0]], s.now)
      then Some(NodeStatus.Busy) else None
    case Connect(_, reachable) =>
      if pc.Connecting? && pc.node < |s.shared.connected| && !s.shared.connected[pc.node] && !reachable
      then Some(OffLine(s.now)) else None
    case SecondCheck(c) =>
      if c < |s.calls| && s.calls[c].stage < |s.shared.quotas|
         && s.shared.quotas[s.calls[c].stage].count >= s.shared.quotas[s.calls[c].stage].limit
      then Some(Idle) else None
    case Submit(c) =>
      if c < |s.calls| && pc.Counted? && s.calls[c].kind == Prove && s.calls[c].lastNode == Some(pc.node)
      then Some(Idle) else None
    case Free(_) =>
      if pc.Returned? || pc.Left? then Some(if pc.reply == Unreachable then OffLine(s.now) else Idle) else None
    case _ => None
  }

  /** The node an action is about. */
  function NodeOf(s: State, a: Action): Option<nat> {
    if a.Tick? || a.Begin? then None
    else if CallPc(s, a.c).Scanning? then
      if CallPc(s, a.c).rest == [] then None else Some(CallPc(s, a.c).rest[0])
    else Owned(CallPc(s, a.c))
  }

  /** From every reachable state, an action changes at most the node it is about, and leaves it
      exactly so. */
  lemma {:induction false} NodesAfter(s: State, a: Action)
    requires Inv(s) && Enabled(s, a)
    ensures Leaves(s, a).Some? ==> NodeOf(s, a).Some? && NodeOf(s, a).value < |s.shared.nodes|
    ensures Next(s, a).shared.nodes
         == if Leaves(s, a).Some? then s.shared.nodes[NodeOf(s, a).value := Leaves(s, a).value] else s.shared.nodes
  {
    if !a.Tick? && !a.Begin? {
      assert CallBounds(s, a.c);
      assert KindOk(s.calls[a.c]);
    }
  }

  /** How an action changes a stage's counter: one more for a call that passes the second check
      below the limit, one less for a response. */
  lemma {:induction false} CountAfter(s: State, a: Action, stage: nat)
    requires Inv(s) && Enabled(s, a) && stage < |s.shared.quotas|
    ensures |Next(s, a).shared.quotas| == |s.shared.quotas|
    ensures var q, q1 := s.shared.quotas[stage], Next(s, a).shared.quotas[stage];
      && q1.limit == q.limit
      && q1.count ==
           if a.SecondCheck? && s.calls[a.c].stage == stage && q.count < q.limit then q.count + 1
           else if a.Decrement? && s.calls[a.c].stage == stage then q.count - 1
           else q.count
  {
    if !a.Tick? && !a.Begin? {
      assert CallBounds(s, a.c);
      if a.Decrement? {
        assert QuotaOk(s, s.calls[a.c].stage);
        CountPositive(s.calls, a.c, Admitted(s.calls[a.c].stage));
      }
    }
  }

  lemma {:induction false} AfterNext(s: State, schedule: seq<Action>, a: Action, s1: State)
    requires Inv(s) && After(s, schedule) == s1 && Enabled(s1, a)
    ensures Inv(s1) && After(s, schedule + [a]) == Next(s1, a)
  {
    AfterInv(s, schedule);
    assert (schedule + [a])[..|schedule|] == schedule;
  }

  /** A new call of the stage holds the node, which was offline before and is not connected. */
  ghost predicate TakenAgain(s: State, s1: State, n: nat, stage: nat) {
    && s1.calls == s.calls + [Call(stage, Prove, None, Connecting(n, []))]
    && n < |s.shared.nodes| == |s.shared.connected|
    && s1.shared == s.shared.(nodes := s.shared.nodes[n := NodeStatus.Busy], connected := s.shared.connected[n := false])
  }

  /** The state at a later time in which a new call of the stage has the given pc. */
  function WithCall(s: State, seconds: nat, stage: nat, pc: Pc): State {
    s.(now := s.now + seconds, calls := s.calls + [Call(stage, Prove, None, pc)])
  }

  lemma {:induction false} CallComes(s: State, seconds: nat, n: nat, stage: nat)
    requires Inv(s) && n < |s.shared.nodes| && stage < |s.shared.quotas| && HasRoom(s.shared, stage)
    ensures exists schedule :: After(s, schedule) == WithCall(s, seconds, stage, Scanning([n]))
  {
    var c, now := |s.calls|, s.(now := s.now + seconds);
    AfterNext(s, [], Tick(seconds), s);
    AfterNext(s, [] + [Tick(seconds)], Begin(stage, Prove, None), now);
    var r := [] + [Tick(seconds)] + [Begin(stage, Prove, None)];
    AfterNext(s, r, FirstCheck(c, [n]), WithCall(s, seconds, stage, Start));
    assert Next(WithCall(s, seconds, stage, Start), FirstCheck(c, [n])) == WithCall(s, seconds, stage, Scanning([n]));
  }

  /** No node is lost for good by a failed connection or response: three minutes later a call of
      any stage that has room can take it. */
  lemma {:induction false} OfflineReturns(s: State, n: nat, stage: nat)
    requires Inv(s) && n < |s.shared.nodes| && s.shared.nodes[n].OffLine?
    requires stage < |s.shared.quotas| && HasRoom(s.shared, stage)
    ensures exists schedule :: TakenAgain(s, After(s, schedule), n, stage)
  {
    var c, seconds := |s.calls|, s.shared.nodes[n].ts + 180;
    var s1 := WithCall(s, seconds, stage, Scanning([n]));
    CallComes(s, seconds, n, stage);
    var schedule :| After(s, schedule) == s1;
    AfterNext(s, schedule, TryNode(c), s1);
    TriedNode(s1, TryNode(c), n);
    StepIsMove(s1, TryNode(c));
    assert [n][1..] == [];
    var s2 := Next(s1, TryNode(c));
    assert s2.calls == s.calls + [Call(stage, Prove, None, Connecting(n, []))];
    assert TakenAgain(s, After(s, schedule + [TryNode(c)]), n, stage);
  }

  // The snark node

  /** A snark call has no other candidate than the first node. */
  predicate OnFirstNode(call: Call) {
    call.kind == Snark ==>
      && (Owned(call.pc).Some? ==> Owned(call.pc).value == 0)
      && (call.pc.Scanning? || call.pc.Connecting? ==> forall i :: 0 <= i < |call.pc.rest| ==> call.pc.rest[i] == 0)
  }

  lemma {:induction false} StepFirstNode(s: State, a: Action, c: nat)
    requires Bounds(s) && Enabled(s, a) && c < |Next(s, a).calls| && (c < |s.calls| ==> OnFirstNode(s.calls[c]))
    ensures OnFirstNode(Next(s, a).calls[c])
  {
    StepIsMove(s, a);
  }

  /** Snark proofs are only ever asked of the first node. */
  lemma {:induction false} SnarkOnFirstNode(nodes: nat, limits: seq<nat>, schedule: seq<Action>, c: nat)
    requires c < |After(Init(nodes, limits), schedule).calls|
    ensures OnFirstNode(After(Init(nodes, limits), schedule).calls[c])
    decreases |schedule|
  {
    if schedule != [] {
      var before, a := schedule[..|schedule| - 1], schedule[|schedule| - 1];
      var s := After(Init(nodes, limits), before);
      if c < |s.calls| {
        SnarkOnFirstNode(nodes, limits, before, c);
      }
      if Bounds(s) && Enabled(s, a) {
        StepFirstNode(s, a, c);
      }
    }
  }
}
