/** The event loop together with the quota of its calls (stage_worker.rs, run_stage_task;
    prover_client.rs): every outstanding call passes two checks against cur_prover_num, and
    its reply reaches the loop once it is over. */
module QuotaSpec {
  import opened Tasks
  import opened ProverReplies
  import opened StageSpec
  import opened WorkerSpec
  import opened WorkerInvariant

  // Waiting: before the first check.  Looking: past it, in get_idle_client.  Counted: past
  // the second check, with its node.  Over: the reply waits in the loop's channel.
  datatype Phase = Waiting | Looking | Counted(node: string) | Over(reply: Reply)

  // The loop's state when it began to hand out tasks, and the event that drives this turn.
  datatype Half = Half(top: Worker, event: Event)

  // count is cur_prover_num; skips (history) counts the same-node skips of prove; half is
  // set between handing out and receiving, while the loop waits in select!.
  datatype System = System(
    worker: Worker, phases: map<CallId, Phase>, count: nat, skips: nat, half: Option<Half>)

  datatype Move =
    | FirstCheck(c: CallId)
    | NoIdleNode(c: CallId)
    | SecondCheck(c: CallId, node: string)
    | SkipNode(c: CallId)
    | Respond(c: CallId, reply: Reply)
    | HandOut(event: Event)
    | EndTurn(event: Event)

  function Limit(s: System): nat {
    s.worker.stage.gen.maxProverNum
  }

  /** prove's test for the node the task failed on. */
  predicate SameNode(call: Task, node: string) {
    call.ProveCall? && call.prove.trace.nodeInfo == node
  }

  /** How a counted call may end. */
  predicate ReplyFits(job: Job, node: string, reply: Reply) {
    || reply.Unreachable? || reply.NoResult?
    || (reply.Answer? && reply.node == node && (reply.code.Ok? ==> reply.totalSegments == job.segments))
  }

  predicate InPhase(s: System, c: CallId) {
    c in s.phases && c in s.worker.calls
  }

  /** The second half of a turn may only add to what the first half knew. */
  predicate SameStart(e: Event, e1: Event) {
    && e1.splitAt == e.splitAt && e1.proveAt == e.proveAt && e1.aggAt == e.aggAt && e1.snarkAt == e.snarkAt
    && e1.segments == e.segments
  }

  /** The loop receives only calls that are over, and what they came back with. */
  predicate DeliveryReady(s: System, delivery: Option<Delivery>) {
    delivery.Some? ==> delivery.value.call in s.phases && s.phases[delivery.value.call] == Over(delivery.value.reply)
  }

  ghost predicate Enabled(job: Job, s: System, m: Move) {
    match m
    case FirstCheck(c) => InPhase(s, c) && s.phases[c].Waiting?
    case NoIdleNode(c) => InPhase(s, c) && s.phases[c].Looking?
    case SecondCheck(c, node) => InPhase(s, c) && s.phases[c].Looking? && node != ""
    case SkipNode(c) => InPhase(s, c) && s.phases[c].Counted? && SameNode(s.worker.calls[c], s.phases[c].node)
    case Respond(c, reply) =>
      && InPhase(s, c) && s.phases[c].Counted? && !SameNode(s.worker.calls[c], s.phases[c].node)
      && ReplyFits(job, s.phases[c].node, reply)
    case HandOut(e) => s.half.None? && !s.worker.finished && EventOk(job, s.worker.now, e)
    case EndTurn(e) =>
      && s.half.Some? && SameStart(s.half.value.event, e) && EventOk(job, s.half.value.top.now, e)
      && DeliveryReady(s, e.delivery)
  }

  /** The phases of the calls that are now outstanding; new ones have not begun. */
  function PhasesOf(phases: map<CallId, Phase>, calls: map<CallId, Task>): map<CallId, Phase> {
    map c | c in calls :: if c in phases then phases[c] else Waiting
  }

  /** A check against the quota: turned away, or on to the next phase. */
  function Checked(s: System, c: CallId, next: Phase, counted: nat): System {
    if s.count >= Limit(s) then s.(phases := s.phases[c := Over(Refused)])
    else s.(phases := s.phases[c := next], count := s.count + counted)
  }

  /** The source's u32 would underflow where the difference here is cut off at 0. */
  function Decreased(n: nat): nat {
    if n == 0 then 0 else n - 1
  }

  function Next(s: System, m: Move): System {
    match m
    case FirstCheck(c) => Checked(s, c, Looking, 0)
    case NoIdleNode(c) => s.(phases := s.phases[c := Over(NoNode)])
    case SecondCheck(c, node) => Checked(s, c, Counted(node), 1)
    case SkipNode(c) => s.(phases := s.phases[c := Over(Refused)], skips := s.skips + 1)
    case Respond(c, reply) => s.(phases := s.phases[c := Over(reply)], count := Decreased(s.count))
    case HandOut(e) =>
      var w := Spawn(s.worker, e);
      s.(worker := w, phases := PhasesOf(s.phases, w.calls), half := Some(Half(s.worker, e)))
    case EndTurn(e) =>
      if s.half.None? then s
      else
        var w := Iterate(s.half.value.top, e);
        s.(worker := w, phases := PhasesOf(s.phases, w.calls), half := None)
  }

  // A run: the state at the start and after each move.
  datatype QuotaRun = QuotaRun(job: Job, gen: GenerateTask, moves: seq<Move>, states: seq<System>)

  function Begin(gen: GenerateTask): System {
    System(Start(gen), map[], 0, 0, None)
  }

  ghost predicate MovesOn(q: QuotaRun, k: nat) {
    k < |q.states| == |q.moves| + 1 &&
    if k == 0 then RequestOk(q.gen) && q.states[0] == Begin(q.gen)
    else Enabled(q.job, q.states[k - 1], q.moves[k - 1]) && q.states[k] == Next(q.states[k - 1], q.moves[k - 1])
  }

  ghost predicate IsQuotaRun(q: QuotaRun) {
    |q.states| == |q.moves| + 1 && forall k :: 0 <= k < |q.states| ==> MovesOn(q, k)
  }
}
