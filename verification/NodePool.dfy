/** What calls to prover nodes share: every node's status and, within a stage, a counter
    of admitted calls (prover_node.rs, and the critical sections of prover_client.rs). */
module NodePool {
  import opened Tasks

  datatype NodeStatus = Idle | Busy | OffLine(ts: nat) {
    predicate IsOffline() {
      OffLine?
    }

    function OfflineSince(): Option<nat> {
      if OffLine? then Some(ts) else None
    }
  }

  const OFFLINE_SECONDS := 180

  // A stage's max_prover_num and cur_prover_num.
  datatype Quota = Quota(limit: nat, count: nat)

  // connected: the node's client is set.
  datatype Shared = Shared(nodes: seq<NodeStatus>, connected: seq<bool>, quotas: seq<Quota>)

  // The critical sections

  predicate HasRoom(s: Shared, stage: nat)
    requires stage < |s.quotas|
  {
    s.quotas[stage].count < s.quotas[stage].limit
  }

  /** May get_idle_client take a node in this status? */
  predicate Available(status: NodeStatus, now: nat) {
    match status
    case Idle => true
    case Busy => false
    case OffLine(ts) => ts + OFFLINE_SECONDS <= now
  }

  function Acquire(s: Shared, n: nat, now: nat): (Shared, bool)
    requires n < |s.nodes| == |s.connected|
  {
    if !Available(s.nodes[n], now) then (s, false)
    else (s.(nodes := s.nodes[n := Busy],
             connected := if s.nodes[n].OffLine? then s.connected[n := false] else s.connected), true)
  }

  function SetStatus(s: Shared, n: nat, status: NodeStatus): Shared
    requires n < |s.nodes|
  {
    s.(nodes := s.nodes[n := status])
  }

  function AddCount(s: Shared, stage: nat, d: int): Shared
    requires stage < |s.quotas| && s.quotas[stage].count + d >= 0
  {
    s.(quotas := s.quotas[stage := s.quotas[stage].(count := s.quotas[stage].count + d)])
  }

  /** The second quota check, made with a node in hand: gives the node back when full. */
  function Enter(s: Shared, stage: nat, n: nat): (Shared, bool)
    requires stage < |s.quotas| && n < |s.nodes|
  {
    if HasRoom(s, stage) then (AddCount(s, stage, 1), true) else (SetStatus(s, n, Idle), false)
  }

  /** The shared part as the program keeps it. */
  class Pool {
    var nodes: seq<NodeStatus>
    var connected: seq<bool>
    var quotas: seq<Quota>

    ghost function View(): Shared
      reads this
    {
      Shared(nodes, connected, quotas)
    }

    constructor (quotas: seq<Quota>)
      ensures View() == Shared([], [], quotas)
    {
      nodes, connected, this.quotas := [], [], quotas;
    }

    method AddNode()
      modifies this
      ensures View() == Shared(old(nodes) + [Idle], old(connected) + [false], old(quotas))
    {
      nodes, connected := nodes + [Idle], connected + [false];
    }

    method CheckQuota(stage: nat) returns (admitted: bool)
      requires stage < |quotas|
      ensures admitted <==> HasRoom(View(), stage)
    {
      admitted := !(quotas[stage].count >= quotas[stage].limit);
    }

    method TryNode(n: nat, now: nat) returns (taken: bool)
      requires n < |nodes| == |connected|
      modifies this
      ensures (View(), taken) == Acquire(old(View()), n, now)
    {
      if nodes[n] == Busy {
        return false;
      }
      if nodes[n].IsOffline() {
        var since := nodes[n].OfflineSince();
        if since.Some? && since.value + OFFLINE_SECONDS > now {
          return false;
        }
        connected := connected[n := false];
      }
      nodes := nodes[n := Busy];
      return true;
    }

    /** Connects if needed; reachable says whether a new connection would succeed. */
    method IsActive(n: nat, reachable: bool) returns (ok: bool)
      requires n < |nodes| == |connected|
      modifies this
      ensures ok <==> old(connected)[n] || reachable
      ensures View() == old(View()).(connected := if ok then old(connected)[n := true] else old(connected))
    {
      if !connected[n] && reachable {
        connected := connected[n := true];
      }
      ok := connected[n];
    }

    method Mark(n: nat, status: NodeStatus)
      requires n < |nodes|
      modifies this
      ensures View() == SetStatus(old(View()), n, status)
    {
      nodes := nodes[n := status];
    }

    method TryEnter(stage: nat, n: nat) returns (entered: bool)
      requires stage < |quotas| && n < |nodes|
      modifies this
      ensures (View(), entered) == Enter(old(View()), stage, n)
    {
      if quotas[stage].count >= quotas[stage].limit {
        Mark(n, Idle);
        return false;
      }
      quotas := quotas[stage := quotas[stage].(count := quotas[stage].count + 1)];
      return true;
    }

    method Leave(stage: nat)
      requires stage < |quotas| && quotas[stage].count > 0
      modifies this
      ensures View() == AddCount(old(View()), stage, -1)
    {
      quotas := quotas[stage := quotas[stage].(count := quotas[stage].count - 1)];
    }
  }
}
