/** The pipeline's processors and the middleware around them, for one transfer at a time. */
module Stages {
  import opened Transfers

  datatype Stage =
    | CheckRecvDelivery
    | CheckInitialCommitment
    | CheckSendFinality
    | CheckTimeoutFinality
    | DeliverTimeout
    | RetryTimeout
    | TimeoutGasCost
    | DeliverRecv
    | RetryRecv
    | RecvGasCost
    | WaitForWriteAck
    | CheckWriteAckFinality
    | CheckPostReceiveCommitment
    | DeliverAck
    | RetryAck
    | AckGasCost
    | Finish
  {
    /** Where in the pipeline the stage stands. */
    function Position(): nat {
      match this
      case CheckRecvDelivery => 0
      case CheckInitialCommitment => 1
      case CheckSendFinality => 2
      case CheckTimeoutFinality => 3
      case DeliverTimeout => 4
      case RetryTimeout => 5
      case TimeoutGasCost => 6
      case DeliverRecv => 7
      case RetryRecv => 8
      case RecvGasCost => 9
      case WaitForWriteAck => 10
      case CheckWriteAckFinality => 11
      case CheckPostReceiveCommitment => 12
      case DeliverAck => 13
      case RetryAck => 14
      case AckGasCost => 15
      case Finish => 16
    }

    predicate ChecksCommitment() { CheckInitialCommitment? || CheckPostReceiveCommitment? }

    predicate Batched() { DeliverTimeout? || DeliverRecv? || DeliverAck? }

    /** The status a transfer takes while this processor works on it; the finisher has none. */
    function Status(): RelayStatus {
      match this
      case CheckRecvDelivery => CHECK_RECV_PACKET_DELIVERY
      case CheckInitialCommitment => CHECK_ACK_PACKET_DELIVERY
      case CheckSendFinality => AWAITING_SEND_FINALITY
      case CheckTimeoutFinality => AWAITING_TIMEOUT_FINALITY
      case DeliverTimeout => DELIVER_TIMEOUT_PACKET
      case RetryTimeout => DELIVER_TIMEOUT_PACKET
      case TimeoutGasCost => CALCULATING_TIMEOUT_TX_GAS_COST
      case DeliverRecv => DELIVER_RECV_PACKET
      case RetryRecv => DELIVER_RECV_PACKET
      case RecvGasCost => CALCULATING_RECV_TX_GAS_COST
      case WaitForWriteAck => WAIT_FOR_WRITE_ACK
      case CheckWriteAckFinality => AWAITING_WRITE_ACK_FINALITY
      case CheckPostReceiveCommitment => CHECK_ACK_PACKET_DELIVERY
      case DeliverAck => DELIVER_ACK_PACKET
      case RetryAck => DELIVER_ACK_PACKET
      case AckGasCost => CALCULATING_ACK_TX_GAS_COST
      case Finish => PENDING
    }
  }

  const STAGES: nat := 17

  /** The order NewPipeline builds the stages in. */
  function StageAt(k: nat): (stage: Stage)
    requires k < STAGES
    ensures stage.Position() == k
  {
    if k == 0 then CheckRecvDelivery
    else if k == 1 then CheckInitialCommitment
    else if k == 2 then CheckSendFinality
    else if k == 3 then CheckTimeoutFinality
    else if k == 4 then DeliverTimeout
    else if k == 5 then RetryTimeout
    else if k == 6 then TimeoutGasCost
    else if k == 7 then DeliverRecv
    else if k == 8 then RetryRecv
    else if k == 9 then RecvGasCost
    else if k == 10 then WaitForWriteAck
    else if k == 11 then CheckWriteAckFinality
    else if k == 12 then CheckPostReceiveCommitment
    else if k == 13 then DeliverAck
    else if k == 14 then RetryAck
    else if k == 15 then AckGasCost
    else Finish
  }

  datatype BridgeTx = BridgeTx(hash: string, time: Time, relayer: string)

  /** PacketWriteAckStatus: a status, ErrWriteAckDecoding, ErrWriteAckNotFoundForPacket, or any other error. */
  datatype WriteAckReply = Decoded(status: WriteAckStatus) | Undecodable | NotInTx | Unavailable

  /** Everything the world tells one stage about one transfer. Each stage reads the parts it asks for. */
  datatype Answer = Answer(
    now: Time,                         // the clock at the first look at the guard
    later: Time,                       // the clock at any later look within the stage
    statusSaved: bool,                 // did UpdateTransferState succeed
    reply: Option<bool>,               // the chain's answer; None when the client or the query failed
    foundTx: Option<BridgeTx>,         // FindRecvTx or FindAckTx
    foundTimeoutTx: Option<BridgeTx>,  // FindTimeoutTx
    writeAck: WriteAckReply,
    gasCost: Option<int>,
    listed: bool,                      // did the batch request list this transfer's sequence
    delivered: Option<BridgeTx>,       // None when getting, waiting for or submitting the batch tx failed
    saved: bool)                       // did the stage's own storage call succeed

  /** What the relayer did to the outside: the answers it got, and the batch requests it joined. */
  datatype Event = Asked(stage: Stage, reply: bool) | Submitted(stage: Stage)

  /** A transfer in the pipeline, the row behind it, and its history in this pass. */
  datatype Flight = Flight(t: Transfer, row: Columns, trace: seq<Event>)

  /** Within a pass the in-memory hashes only ever go from absent to present. */
  predicate Keeps(c: Columns, d: Columns) {
    && (c.recv.hash.Some? ==> d.recv.hash == c.recv.hash)
    && (c.writeAck.hash.Some? ==> d.writeAck.hash == c.writeAck.hash && d.writeAck.status == c.writeAck.status)
    && (c.ack.hash.Some? ==> d.ack.hash == c.ack.hash)
    && (c.timeout.hash.Some? ==> d.timeout.hash == c.timeout.hash)
  }

  /** What a stage does at most to a flight: same packet; no in-memory hash lost or replaced, and new
      ones only from the stages that look for them; no error forgotten; no status but the stage's own;
      and at most one new event, tagged with the stage and a submission exactly if the stage is batched. */
  predicate Extends(stage: Stage, f: Flight, g: Flight) {
    && g.t.packet == f.t.packet
    && Keeps(f.t.cols, g.t.cols)
    && (g.t.cols.recv == f.t.cols.recv || stage.CheckRecvDelivery? || stage.DeliverRecv?)
    && (g.t.cols.writeAck.hash == f.t.cols.writeAck.hash || stage.WaitForWriteAck?)
    && (g.t.cols.writeAck.status == f.t.cols.writeAck.status || stage.WaitForWriteAck?)
    && (g.t.cols.ack == f.t.cols.ack || stage.ChecksCommitment() || stage.DeliverAck?)
    && (g.t.cols.timeout == f.t.cols.timeout || stage.ChecksCommitment() || stage.DeliverTimeout?)
    && (f.t.errored ==> g.t.errored)
    && (g.t.cols.status == f.t.cols.status || g.t.cols.status == stage.Status() || stage.Finish?)
    && (g.row.status == f.row.status || g.row.status == stage.Status() || stage.Finish?)
    && (g.trace == f.trace || AddsEvent(stage, f.trace, g.trace))
    && RowMoves(stage, f.row, g.row)
  }

  /** The stages that may change each hash of the row. */
  predicate RowMoves(stage: Stage, c: Columns, d: Columns) {
    && (d.recv.hash == c.recv.hash || stage.CheckRecvDelivery? || stage.DeliverRecv? || stage.RetryRecv?
        || stage.WaitForWriteAck?)
    && (d.writeAck.(finalizedTime := None) == c.writeAck.(finalizedTime := None) || stage.WaitForWriteAck?)
    && (d.ack.hash == c.ack.hash || stage.ChecksCommitment() || stage.DeliverAck? || stage.RetryAck?)
    && (d.timeout.hash == c.timeout.hash || stage.ChecksCommitment() || stage.DeliverTimeout? || stage.RetryTimeout?)
  }

  predicate AddsEvent(stage: Stage, before: seq<Event>, after: seq<Event>) {
    && after != []
    && var e := after[|after| - 1];
       after == before + [e] && e.stage == stage && (e.Submitted? <==> stage.Batched())
  }

  /** What holds of every row: at most one of ack and timeout; a write ack complete with its status
      and found in the recorded recv tx; every hash with its time. */
  predicate Coherent(c: Columns) {
    && !(c.ack.hash.Some? && c.timeout.hash.Some?)
    && (c.writeAck.hash.Some? <==> c.writeAck.status.Some?)
    && (c.writeAck.hash.Some? <==> c.writeAck.time.Some?)
    && (c.writeAck.hash.Some? ==> c.recv.hash == c.writeAck.hash)
    && (c.recv.hash.Some? <==> c.recv.time.Some?)
    && (c.ack.hash.Some? <==> c.ack.time.Some?)
    && (c.timeout.hash.Some? <==> c.timeout.time.Some?)
  }

  /** Memory and row agree on every column but the six that are written to one side only: the
      relayer of an ack or timeout tx, the three gas costs and the finalized time of the write ack. */
  predicate Agrees(mem: Columns, row: Columns) {
    && mem.status == row.status
    && mem.sourceTxFinalizedTime == row.sourceTxFinalizedTime
    && mem.recv.(gasCost := None) == row.recv.(gasCost := None)
    && mem.writeAck.(finalizedTime := None) == row.writeAck.(finalizedTime := None)
    && mem.ack.(relayer := None, gasCost := None) == row.ack.(relayer := None, gasCost := None)
    && mem.timeout.(relayer := None, gasCost := None) == row.timeout.(relayer := None, gasCost := None)
  }

  /** The row is coherent, and an unerrored transfer agrees with it. */
  predicate Consistent(f: Flight) {
    Coherent(f.row) && (!f.t.errored ==> Agrees(f.t.cols, f.row))
  }

  /** A gas calculator stage that is not built passes everything through. */
  predicate Built(opts: Options, stage: Stage) {
    match stage
    case TimeoutGasCost => opts.sourceGas
    case AckGasCost => opts.sourceGas
    case RecvGasCost => opts.destinationGas
    case _ => true
  }

  /** ShouldProcess of every processor. */
  predicate Guard(opts: Options, stage: Stage, t: Transfer, now: Time) {
    match stage
    case CheckRecvDelivery => !t.HasRecv() && !t.HasAck() && !t.HasTimeout()
    case CheckInitialCommitment => !t.HasAck() && !t.HasTimeout()
    case CheckSendFinality => !t.HasRecv()
    case CheckTimeoutFinality => t.IsTimedOut(now) && !t.HasRecv() && !t.HasAck() && !t.HasTimeout()
    case DeliverTimeout => t.IsTimedOut(now) && !t.HasRecv() && !t.HasAck() && !t.HasTimeout()
    case RetryTimeout => t.HasTimeout() && t.cols.timeout.time.Some?
    case TimeoutGasCost => t.cols.timeout.gasCost.None? && t.HasTimeout()
    case DeliverRecv => !t.HasRecv() && !t.IsTimedOut(now)
    case RetryRecv => t.HasRecv() && t.cols.recv.time.Some? && !t.HasWriteAck()
    case RecvGasCost => t.cols.recv.gasCost.None? && t.HasRecv()
    case WaitForWriteAck => t.HasRecv() && !t.HasWriteAck() && !t.HasTimeout()
    case CheckWriteAckFinality =>
      t.HasWriteAck() && t.cols.writeAck.status.Some? && opts.Relays(t.cols.writeAck.status.value)
    case CheckPostReceiveCommitment => !t.HasAck() && !t.HasTimeout()
    case DeliverAck =>
      && t.HasWriteAck() && t.cols.writeAck.status.Some? && opts.Relays(t.cols.writeAck.status.value)
      && !t.HasAck() && !t.HasTimeout()
    case RetryAck => t.HasAck() && t.cols.ack.time.Some?
    case AckGasCost => t.cols.ack.gasCost.None? && t.HasAck()
    case Finish => true
  }

  lemma GuardIgnoresStatus(opts: Options, stage: Stage, t: Transfer, now: Time, s: RelayStatus)
    ensures Guard(opts, stage, t.(cols := t.cols.(status := s)), now) == Guard(opts, stage, t, now)
  {
  }

  function Fail(f: Flight): Flight {
    f.(t := f.t.(errored := true))
  }

  /** Note the answer to a yes-or-no question. */
  function Note(f: Flight, stage: Stage, a: Answer): Flight {
    if a.reply.Some? then f.(trace := f.trace + [Asked(stage, a.reply.value)]) else f
  }

  /** Record a tx; the cost of an earlier one stays. */
  function Record(c: TxColumns, tx: BridgeTx): TxColumns {
    c.(hash := Some(tx.hash), time := Some(tx.time), relayer := Some(tx.relayer))
  }

  /** ClearRecvTx, ClearAckTx, ClearTimeoutTx: only the hash and the time go. */
  function Cleared(c: TxColumns): TxColumns {
    c.(hash := None, time := None)
  }

  function WithRecv(c: Columns, tx: BridgeTx): Columns { c.(recv := Record(c.recv, tx)) }

  function WithAck(c: Columns, tx: BridgeTx): Columns { c.(ack := Record(c.ack, tx)) }

  function WithTimeout(c: Columns, tx: BridgeTx): Columns { c.(timeout := Record(c.timeout, tx)) }

  /** The update of the finalized time of the write ack carries no key, so it reaches this row
      only if the row's own key is the empty one. */
  const EMPTY_KEY := RowKey("", "", 0)

  /** Process of every unbatched processor, entered with the guard true. */
  function Effect(opts: Options, stage: Stage, a: Answer, f: Flight): (g: Flight)
    requires !stage.Batched() && !stage.Finish? && Guard(opts, stage, f.t, a.now)
    ensures Extends(stage, f, g)
    ensures Consistent(f) && !f.t.errored ==> Consistent(g)
  {
    match stage
    case CheckRecvDelivery => CheckRecvDeliveryEffect(a, f)
    case CheckInitialCommitment => CommitmentEffect(stage, a, f)
    case CheckSendFinality => SendFinalityEffect(a, f)
    case CheckTimeoutFinality => TimeoutFinalityEffect(a, f)
    case RetryTimeout => RetryEffect(stage, a, f, f.row.(timeout := Cleared(f.row.timeout)))
    case TimeoutGasCost => GasEffect(stage, a, f, f.row.(timeout := f.row.timeout.(gasCost := a.gasCost)))
    case RetryRecv => RetryEffect(stage, a, f, f.row.(recv := Cleared(f.row.recv)))
    case RecvGasCost => GasEffect(stage, a, f, f.row.(recv := f.row.recv.(gasCost := a.gasCost)))
    case WaitForWriteAck => WriteAckEffect(a, f)
    case CheckWriteAckFinality => WriteAckFinalityEffect(a, f)
    case CheckPostReceiveCommitment => CommitmentEffect(stage, a, f)
    case RetryAck => RetryEffect(stage, a, f, f.row.(ack := Cleared(f.row.ack)))
    case AckGasCost => GasEffect(stage, a, f, f.row.(ack := f.row.ack.(gasCost := a.gasCost)))
  }

  function CheckRecvDeliveryEffect(a: Answer, f: Flight): (g: Flight)
    requires !f.t.HasRecv()
    ensures Extends(CheckRecvDelivery, f, g)
    ensures Consistent(f) && !f.t.errored ==> Consistent(g)
  {
    var g := Note(f, CheckRecvDelivery, a);
    if a.reply == Some(false) then g
    else if a.reply.None? || a.foundTx.None? || !a.saved then Fail(g)
    else g.(row := WithRecv(g.row, a.foundTx.value),
            t := g.t.(cols := WithRecv(g.t.cols, a.foundTx.value)))
  }

  function CommitmentEffect(stage: Stage, a: Answer, f: Flight): (g: Flight)
    requires stage.ChecksCommitment() && !f.t.HasAck() && !f.t.HasTimeout()
    ensures Extends(stage, f, g)
    ensures Consistent(f) && !f.t.errored ==> Consistent(g)
  {
    var g := Note(f, stage, a);
    if a.reply == Some(true) then g
    else if a.reply.None? || a.foundTx.Some? == a.foundTimeoutTx.Some? || !a.saved then Fail(g)
    else if a.foundTx.Some? then
      g.(row := WithAck(g.row, a.foundTx.value),
         t := g.t.(cols := WithAck(g.t.cols, a.foundTx.value)))
    else
      g.(row := WithTimeout(g.row, a.foundTimeoutTx.value),
         t := g.t.(cols := WithTimeout(g.t.cols, a.foundTimeoutTx.value)))
  }

  function SendFinalityEffect(a: Answer, f: Flight): (g: Flight)
    ensures Extends(CheckSendFinality, f, g)
    ensures Consistent(f) && !f.t.errored ==> Consistent(g)
  {
    var g := Note(f, CheckSendFinality, a);
    if a.reply != Some(true) then Fail(g)
    else if g.t.cols.sourceTxFinalizedTime.Some? then g
    else if !a.saved then Fail(g)
    else g.(row := g.row.(sourceTxFinalizedTime := Some(a.later)),
            t := g.t.(cols := g.t.cols.(sourceTxFinalizedTime := Some(a.later))))
  }

  function TimeoutFinalityEffect(a: Answer, f: Flight): (g: Flight)
    ensures Extends(CheckTimeoutFinality, f, g)
    ensures Consistent(f) && !f.t.errored ==> Consistent(g)
  {
    var g := Note(f, CheckTimeoutFinality, a);
    if a.reply == Some(true) then g else Fail(g)
  }

  /** A tx that must be retried is cleared from the row only; the transfer errors out of this
      pass still holding the old hash. */
  function RetryEffect(stage: Stage, a: Answer, f: Flight, cleared: Columns): (g: Flight)
    requires !stage.Batched() && cleared.status == f.row.status && RowMoves(stage, f.row, cleared)
    ensures Extends(stage, f, g)
    ensures Consistent(f) && !f.t.errored && Coherent(cleared) ==> Consistent(g)
  {
    var g := Note(f, stage, a);
    if a.reply == Some(false) then g
    else if a.reply == Some(true) && a.saved then Fail(g.(row := cleared))
    else Fail(g)
  }

  /** The cost goes to the row alone. */
  function GasEffect(stage: Stage, a: Answer, f: Flight, costed: Columns): (g: Flight)
    requires !stage.Batched() && Agrees(f.row, costed) && RowMoves(stage, f.row, costed)
    ensures Extends(stage, f, g)
    ensures Consistent(f) && !f.t.errored ==> Consistent(g)
  {
    if a.gasCost.Some? && a.saved then f.(row := costed) else Fail(f)
  }

  function WriteAckEffect(a: Answer, f: Flight): (g: Flight)
    requires f.t.HasRecv() && !f.t.HasWriteAck()
    ensures Extends(WaitForWriteAck, f, g)
    ensures Consistent(f) && !f.t.errored ==> Consistent(g)
  {
    match a.writeAck
    case Unavailable => Fail(f)
    case NotInTx =>
      if a.saved then Fail(f.(row := f.row.(recv := Cleared(f.row.recv)))) else Fail(f)
    case Decoded(s) => RecordWriteAck(a, f, s)
    case Undecodable => RecordWriteAck(a, f, UNKNOWN)
  }

  function RecordWriteAck(a: Answer, f: Flight, s: WriteAckStatus): (g: Flight)
    requires f.t.HasRecv() && !f.t.HasWriteAck()
    ensures Extends(WaitForWriteAck, f, g)
    ensures Consistent(f) && !f.t.errored ==> Consistent(g)
  {
    if !a.saved then Fail(f)
    else
      f.(row := WithWriteAck(f.row, f.t.cols, s),
         t := f.t.(cols := WithWriteAck(f.t.cols, f.t.cols, s)))
  }

  /** The write ack is taken to be in the recv tx; a missing recv time is written as the zero time. */
  function WithWriteAck(c: Columns, mem: Columns, s: WriteAckStatus): Columns {
    var time := if mem.recv.time.Some? then mem.recv.time.value else 0;
    c.(writeAck := c.writeAck.(hash := mem.recv.hash, time := Some(time), status := Some(s)))
  }

  function WriteAckFinalityEffect(a: Answer, f: Flight): (g: Flight)
    ensures Extends(CheckWriteAckFinality, f, g)
    ensures Consistent(f) && !f.t.errored ==> Consistent(g)
  {
    var g := Note(f, CheckWriteAckFinality, a);
    if a.reply != Some(true) then Fail(g)
    else if g.t.cols.writeAck.finalizedTime.Some? then g
    else if !a.saved then Fail(g)
    else
      var row := if g.t.Key() == EMPTY_KEY then WithWriteAckFinality(g.row, a.later) else g.row;
      g.(row := row, t := g.t.(cols := WithWriteAckFinality(g.t.cols, a.later)))
  }

  function WithWriteAckFinality(c: Columns, time: Time): Columns {
    c.(writeAck := c.writeAck.(finalizedTime := Some(time)))
  }

  /** IBCV2ProcessorMW.Process around an unbatched processor. */
  function SingleStep(opts: Options, stage: Stage, a: Answer, f: Flight): (g: Flight)
    requires !stage.Batched() && !stage.Finish?
    ensures Extends(stage, f, g)
    ensures Consistent(f) ==> Consistent(g)
  {
    if f.t.errored || f.t.cols.status == FAILED || !Guard(opts, stage, f.t, a.now) then f
    else if !a.statusSaved then Fail(f)
    else Effect(opts, stage, a, WithStatus(f, stage.Status()))
  }

  function WithStatus(f: Flight, s: RelayStatus): Flight {
    f.(row := f.row.(status := s), t := f.t.(cols := f.t.cols.(status := s)))
  }

  /** The splitter and the batch middleware both let this transfer through to the batch processor. */
  predicate Admitted(opts: Options, stage: Stage, a: Answer, t: Transfer) {
    && !t.errored
    && Guard(opts, stage, t, a.now)
    && t.cols.status != FAILED
    && Guard(opts, stage, t, a.later)
  }

  /** ConditionallyBatchProcess and IBCV2BatchProcessorMW.Process, seen from one transfer. A failed
      status write errors the transfer, yet it stays in the batch that is then submitted. */
  function BatchStep(opts: Options, stage: Stage, a: Answer, f: Flight): (g: Flight)
    requires stage.Batched()
    ensures Extends(stage, f, g)
    ensures Consistent(f) ==> Consistent(g)
  {
    if !Admitted(opts, stage, a, f.t) then f else Batch(stage, a, f)
  }

  /** What happens to a transfer that the batch middleware admits. */
  function Batch(stage: Stage, a: Answer, f: Flight): (g: Flight)
    requires stage.Batched() && !f.t.errored
    requires stage.DeliverRecv? ==> !f.t.HasRecv()
    requires stage.DeliverTimeout? || stage.DeliverAck? ==> !f.t.HasAck() && !f.t.HasTimeout()
    ensures Extends(stage, f, g)
    ensures Consistent(f) ==> Consistent(g)
  {
    if a.statusSaved then Deliver(stage, a, WithStatus(f, stage.Status()))
    else
      Deliver(stage, a, f.(t := f.t.(cols := f.t.cols.(status := stage.Status()), errored := true)))
  }

  /** The batch processors: the request, the batch tx, the row updates in one transaction, then the
      in-memory updates. The relayer address of a timeout or ack tx is not copied to memory. */
  function Deliver(stage: Stage, a: Answer, f: Flight): (g: Flight)
    requires stage.Batched()
    requires stage.DeliverRecv? ==> !f.t.HasRecv()
    requires stage.DeliverTimeout? || stage.DeliverAck? ==> !f.t.HasAck() && !f.t.HasTimeout()
    ensures Extends(stage, f, g)
    ensures Consistent(f) ==> Consistent(g)
  {
    if !a.listed then Fail(f)
    else
      var g := f.(trace := f.trace + [Submitted(stage)]);
      if a.delivered.None? || !a.saved then Fail(g)
      else if g.t.errored then g
      else
        var tx := a.delivered.value;
        match stage
        case DeliverRecv => g.(row := WithRecv(g.row, tx), t := g.t.(cols := WithRecv(g.t.cols, tx)))
        case DeliverTimeout =>
          g.(row := WithTimeout(g.row, tx), t := g.t.(cols := g.t.cols.(timeout := HashAndTime(g.t.cols.timeout, tx))))
        case DeliverAck =>
          g.(row := WithAck(g.row, tx), t := g.t.(cols := g.t.cols.(ack := HashAndTime(g.t.cols.ack, tx))))
  }

  function HashAndTime(c: TxColumns, tx: BridgeTx): TxColumns {
    c.(hash := Some(tx.hash), time := Some(tx.time))
  }

  /** The terminal status of a complete transfer, if it has one. */
  function FinalStatus(t: Transfer): Option<RelayStatus> {
    if t.HasTimeout() then Some(COMPLETE_WITH_TIMEOUT)
    else if t.cols.writeAck.status.None? then None
    else if t.HasAck() then Some(COMPLETE_WITH_ACK)
    else if t.cols.writeAck.status.value.SUCCESS? then Some(COMPLETE_WITH_WRITE_ACK_SUCCESS)
    else Some(COMPLETE_WITH_WRITE_ACK_ERROR)
  }

  /** StateFinisher.Process. */
  function FinishStep(opts: Options, a: Answer, f: Flight): (g: Flight)
    ensures Extends(Finish, f, g)
    ensures Consistent(f) ==> Consistent(g)
  {
    if f.t.errored || !f.t.IsComplete(opts) || FinalStatus(f.t).None? then f
    else
      var done := WithStatus(f, FinalStatus(f.t).value);
      if a.statusSaved then done else Fail(f.(t := done.t))
  }

  /** One stage of the pipeline. */
  function StageStep(opts: Options, stage: Stage, a: Answer, f: Flight): (g: Flight)
    ensures Extends(stage, f, g)
    ensures Consistent(f) ==> Consistent(g)
    ensures f.t.errored || (f.t.cols.status == FAILED && !stage.Finish?) ==> g == f
  {
    if !Built(opts, stage) then f
    else if stage.Finish? then FinishStep(opts, a, f)
    else if stage.Batched() then BatchStep(opts, stage, a, f)
    else SingleStep(opts, stage, a, f)
  }

  /** The table after a stage took a flight from f to g: the flight's own row, and the finalized time
      of a write ack, which is written under the empty key. */
  function TableAfter(table: map<RowKey, Row>, stage: Stage, a: Answer, f: Flight, g: Flight): map<RowKey, Row> {
    var k := f.t.Key();
    var own := if k in table then table[k := table[k].(cols := g.row)] else table;
    if stage.CheckWriteAckFinality? && g.t.cols.writeAck.finalizedTime != f.t.cols.writeAck.finalizedTime
       && EMPTY_KEY in own
    then own[EMPTY_KEY := own[EMPTY_KEY].(cols := WithWriteAckFinality(own[EMPTY_KEY].cols, a.later))]
    else own
  }
}
