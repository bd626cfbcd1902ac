/** What a call to a prover node hands back to the stage (prover_client.rs), with the
    provers' work represented by receipt constructors. */
module ProverReplies {
  import opened Receipts
  import opened Tasks

  // Other(code) is every other number, whether the enumeration knows it (INVALID_PARAMETER
  // is 1) or not.
  datatype ResultCode = Unspecified | Ok | InternalError | Busy | Other(code: int)

  // How a call ends: refused by the quota (or, for prove, skipped on the node it failed
  // on), no idle node, transport error, a response without result, or a response.
  // junk stands for whatever an unsuccessful response carries as its output.
  datatype Reply =
    | Refused
    | NoNode
    | Unreachable
    | NoResult
    | Answer(code: ResultCode, node: string, junk: Receipt, totalSteps: nat, totalSegments: nat)

  function ResultCodeToState(code: ResultCode): TaskState {
    match code
    case Unspecified => Processing
    case Ok => Success
    case InternalError => Failed
    case Busy => Unprocessed
    case Other(_) => Failed
  }

  function SplitReply(t: SplitTask, r: Reply): SplitTask {
    if r.Answer? then
      t.(state := ResultCodeToState(r.code), trace := t.trace.(nodeInfo := r.node),
         totalSteps := r.totalSteps, totalSegments := r.totalSegments)
    else t.(state := Unprocessed)
  }

  function ProveReply(t: ProveTask, r: Reply): ProveTask {
    if r.Answer? then
      t.(state := ResultCodeToState(r.code), trace := t.trace.(nodeInfo := r.node),
         output := if r.code.Ok? then SegmentProof(t.fileNo) else r.junk)
    else t.(state := Unprocessed)
  }

  function InputReceipts(inputs: seq<AggregateInput>): (rs: seq<Receipt>) {
    seq(|inputs|, j requires 0 <= j < |inputs| => inputs[j].receiptInput)
  }

  function AggReply(t: AggTask, r: Reply): AggTask {
    if r.Answer? then
      t.(state := ResultCodeToState(r.code), trace := t.trace.(nodeInfo := r.node),
         output := if r.code.Ok? then Aggregate(InputReceipts(t.inputs)) else r.junk)
    else t.(state := Unprocessed)
  }

  /** Unlike the others, snark_proof keeps the task's own state when the quota refuses it. */
  function SnarkReply(t: SnarkTask, r: Reply): SnarkTask {
    match r
    case Refused => t
    case NoNode => t.(state := Unprocessed)
    case Answer(Ok, node, _, _, _) =>
      t.(state := Success, trace := t.trace.(nodeInfo := node), output := SnarkProof(t.aggReceipt))
    case _ => t.(state := Failed)
  }
}
