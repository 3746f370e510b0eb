/** The stages once more, each as one line of a table written down from the columns alone: when it works on a
    transfer, the status it sets, what it asks, and what then becomes of the transfer and of its row. */
module StageTable {
  import opened Transfers
  import opened Stages
  import opened Pass

  /** A tx taken over whole; the cost of an earlier one stays. */
  function Whole(c: TxColumns, tx: BridgeTx): TxColumns {
    TxColumns(Some(tx.hash), Some(tx.time), Some(tx.relayer), c.gasCost)
  }

  /** A tx of which the relayer's address is not taken over. */
  function HashAndTimeOnly(c: TxColumns, tx: BridgeTx): TxColumns {
    TxColumns(Some(tx.hash), Some(tx.time), c.relayer, c.gasCost)
  }

  /** A tx forgotten. */
  function Without(c: TxColumns): TxColumns { TxColumns(None, None, c.relayer, c.gasCost) }

  function Asking(stage: Stage, a: Answer): seq<Event> {
    if a.reply.Some? then [Asked(stage, a.reply.value)] else []
  }

  /** A stage that works on the transfer exactly if go, setting the status, with the events, leaving the transfer
      without an error exactly if ok, and the columns in memory and in the row. */
  predicate Line(f: Flight, g: Flight, a: Answer, go: bool, status: RelayStatus, events: seq<Event>, ok: bool,
                 memory: Columns, row: Columns) {
    if !go then g == f
    else if !a.statusSaved then g == Flight(Transfer(f.t.packet, f.t.cols, true), f.row, f.trace)
    else g == Flight(Transfer(f.t.packet, memory.(status := status), !ok), row.(status := status), f.trace + events)
  }

  /** No recv, ack or timeout is known: is the packet received? */
  lemma CheckRecvDeliveryLine(opts: Options, a: Answer, f: Flight)
    ensures var c, r := f.t.cols, f.row;
            var go := Live(f.t) && c.recv.hash.None? && c.ack.hash.None? && c.timeout.hash.None?;
            var found := a.reply == Some(true) && a.foundTx.Some? && a.saved;
            Line(f, StageStep(opts, CheckRecvDelivery, a, f), a, go, CHECK_RECV_PACKET_DELIVERY,
                 Asking(CheckRecvDelivery, a), found || a.reply == Some(false),
                 if found then c.(recv := Whole(c.recv, a.foundTx.value)) else c,
                 if found then r.(recv := Whole(r.recv, a.foundTx.value)) else r)
  {
    hide Extends, Consistent;
  }

  /** No ack or timeout is known: is the packet still committed, and if not, which of the two ended it? */
  lemma CommitmentLine(opts: Options, stage: Stage, a: Answer, f: Flight)
    requires stage.CheckInitialCommitment? || stage.CheckPostReceiveCommitment?
    ensures var c, r := f.t.cols, f.row;
            var go := Live(f.t) && c.ack.hash.None? && c.timeout.hash.None?;
            var acked := a.reply == Some(false) && a.foundTx.Some? && a.foundTimeoutTx.None? && a.saved;
            var ended := a.reply == Some(false) && a.foundTx.None? && a.foundTimeoutTx.Some? && a.saved;
            Line(f, StageStep(opts, stage, a, f), a, go, CHECK_ACK_PACKET_DELIVERY, Asking(stage, a),
                 acked || ended || a.reply == Some(true),
                 if acked then c.(ack := Whole(c.ack, a.foundTx.value))
                 else if ended then c.(timeout := Whole(c.timeout, a.foundTimeoutTx.value)) else c,
                 if acked then r.(ack := Whole(r.ack, a.foundTx.value))
                 else if ended then r.(timeout := Whole(r.timeout, a.foundTimeoutTx.value)) else r)
  {
    hide Extends, Consistent;
  }

  /** No recv is known: is the send final? */
  lemma SendFinalityLine(opts: Options, a: Answer, f: Flight)
    ensures var c, r := f.t.cols, f.row;
            var go := Live(f.t) && c.recv.hash.None?;
            var first := a.reply == Some(true) && c.sourceTxFinalizedTime.None? && a.saved;
            Line(f, StageStep(opts, CheckSendFinality, a, f), a, go, AWAITING_SEND_FINALITY,
                 Asking(CheckSendFinality, a), first || (a.reply == Some(true) && c.sourceTxFinalizedTime.Some?),
                 if first then c.(sourceTxFinalizedTime := Some(a.later)) else c,
                 if first then r.(sourceTxFinalizedTime := Some(a.later)) else r)
  {
    hide Extends, Consistent;
  }

  /** Past the deadline with no recv, ack or timeout: is the deadline final on the destination? */
  lemma TimeoutFinalityLine(opts: Options, a: Answer, f: Flight)
    ensures var c := f.t.cols;
            var go := Live(f.t) && f.t.packet.timeoutTimestamp < a.now
                      && c.recv.hash.None? && c.ack.hash.None? && c.timeout.hash.None?;
            Line(f, StageStep(opts, CheckTimeoutFinality, a, f), a, go, AWAITING_TIMEOUT_FINALITY,
                 Asking(CheckTimeoutFinality, a), a.reply == Some(true), c, f.row)
  {
    hide Extends, Consistent;
  }

  /** A tx is known: must it be retried? Then the row forgets it, and the transfer errs out of this pass. */
  lemma RetryTimeoutLine(opts: Options, a: Answer, f: Flight)
    ensures var c, r := f.t.cols, f.row;
            Line(f, StageStep(opts, RetryTimeout, a, f), a,
                 Live(f.t) && c.timeout.hash.Some? && c.timeout.time.Some?,
                 DELIVER_TIMEOUT_PACKET, Asking(RetryTimeout, a), a.reply == Some(false), c,
                 if a.reply == Some(true) && a.saved then r.(timeout := Without(r.timeout)) else r)
  {
    hide Extends, Consistent;
  }

  /** Of a recv only until its write ack is known. */
  lemma RetryRecvLine(opts: Options, a: Answer, f: Flight)
    ensures var c, r := f.t.cols, f.row;
            Line(f, StageStep(opts, RetryRecv, a, f), a,
                 Live(f.t) && c.recv.hash.Some? && c.recv.time.Some? && c.writeAck.hash.None?,
                 DELIVER_RECV_PACKET, Asking(RetryRecv, a), a.reply == Some(false), c,
                 if a.reply == Some(true) && a.saved then r.(recv := Without(r.recv)) else r)
  {
    hide Extends, Consistent;
  }

  lemma RetryAckLine(opts: Options, a: Answer, f: Flight)
    ensures var c, r := f.t.cols, f.row;
            Line(f, StageStep(opts, RetryAck, a, f), a,
                 Live(f.t) && c.ack.hash.Some? && c.ack.time.Some?,
                 DELIVER_ACK_PACKET, Asking(RetryAck, a), a.reply == Some(false), c,
                 if a.reply == Some(true) && a.saved then r.(ack := Without(r.ack)) else r)
  {
    hide Extends, Consistent;
  }

  /** A tx is known and its cost is not: the cost goes to the row; where the chain's gas token is configured. */
  lemma GasLine(opts: Options, stage: Stage, a: Answer, f: Flight)
    requires stage.TimeoutGasCost? || stage.RecvGasCost? || stage.AckGasCost?
    ensures var c, r := f.t.cols, f.row;
            var tx := if stage.TimeoutGasCost? then c.timeout else if stage.RecvGasCost? then c.recv else c.ack;
            var token := if stage.RecvGasCost? then opts.destinationGas else opts.sourceGas;
            var costed := a.gasCost.Some? && a.saved;
            Line(f, StageStep(opts, stage, a, f), a, token && Live(f.t) && tx.hash.Some? && tx.gasCost.None?,
                 if stage.TimeoutGasCost? then CALCULATING_TIMEOUT_TX_GAS_COST
                 else if stage.RecvGasCost? then CALCULATING_RECV_TX_GAS_COST else CALCULATING_ACK_TX_GAS_COST,
                 [], costed, c,
                 if !costed then r
                 else if stage.TimeoutGasCost? then r.(timeout := r.timeout.(gasCost := a.gasCost))
                 else if stage.RecvGasCost? then r.(recv := r.recv.(gasCost := a.gasCost))
                 else r.(ack := r.ack.(gasCost := a.gasCost)))
  {
    hide Extends, Consistent;
    assert f.trace + [] == f.trace;
  }

  /** A recv is known and neither its write ack nor a timeout: what does the recv tx say of the write ack? */
  lemma WriteAckLine(opts: Options, a: Answer, f: Flight)
    ensures var c, r := f.t.cols, f.row;
            var go := Live(f.t) && c.recv.hash.Some? && c.writeAck.hash.None? && c.timeout.hash.None?;
            var found := (a.writeAck.Decoded? || a.writeAck.Undecodable?) && a.saved;
            var status := if a.writeAck.Decoded? then a.writeAck.status else UNKNOWN;
            var time := if c.recv.time.Some? then c.recv.time else Some(0);
            var ack := WriteAckColumns(c.recv.hash, time, Some(status), None);
            Line(f, StageStep(opts, WaitForWriteAck, a, f), a, go, WAIT_FOR_WRITE_ACK, [], found,
                 if found then c.(writeAck := ack.(finalizedTime := c.writeAck.finalizedTime)) else c,
                 if found then r.(writeAck := ack.(finalizedTime := r.writeAck.finalizedTime))
                 else if a.writeAck.NotInTx? && a.saved then r.(recv := Without(r.recv)) else r)
  {
    hide Extends, Consistent;
    assert f.trace + [] == f.trace;
  }

  /** A write ack is known whose ack is to be relayed: is it final? The time of it goes to memory, and to the row
      only under the empty key. */
  lemma WriteAckFinalityLine(opts: Options, a: Answer, f: Flight)
    ensures var c, r := f.t.cols, f.row;
            var go := Live(f.t) && c.writeAck.hash.Some? && c.writeAck.status.Some?
                      && RelaysKind(opts, c.writeAck.status.value);
            var first := a.reply == Some(true) && c.writeAck.finalizedTime.None? && a.saved;
            Line(f, StageStep(opts, CheckWriteAckFinality, a, f), a, go, AWAITING_WRITE_ACK_FINALITY,
                 Asking(CheckWriteAckFinality, a), first || (a.reply == Some(true) && c.writeAck.finalizedTime.Some?),
                 if first then c.(writeAck := c.writeAck.(finalizedTime := Some(a.later))) else c,
                 if first && f.t.Key() == RowKey("", "", 0)
                 then r.(writeAck := r.writeAck.(finalizedTime := Some(a.later))) else r)
  {
    hide Extends, Consistent;
  }

  /** A batched stage that works on the transfer exactly if go. A status that is not saved errors the transfer,
      which is submitted all the same. A transfer that is listed and whose batch is delivered and saved takes the tx,
      unless it is errored. */
  predicate BatchLine(f: Flight, g: Flight, a: Answer, go: bool, stage: Stage, status: RelayStatus,
                      memory: Columns, row: Columns) {
    var taken := a.listed && a.delivered.Some? && a.saved && a.statusSaved;
    if !go then g == f
    else g == Flight(Transfer(f.t.packet, (if taken then memory else f.t.cols).(status := status), !taken),
                     (if taken then row else f.row).(status := if a.statusSaved then status else f.row.status),
                     f.trace + if a.listed then [Submitted(stage)] else [])
  }

  /** Past the deadline at both looks, with no recv, ack or timeout. */
  lemma DeliverTimeoutLine(opts: Options, a: Answer, f: Flight)
    ensures var c, r := f.t.cols, f.row;
            var go := Live(f.t) && f.t.packet.timeoutTimestamp < a.now && f.t.packet.timeoutTimestamp < a.later
                      && c.recv.hash.None? && c.ack.hash.None? && c.timeout.hash.None?;
            BatchLine(f, StageStep(opts, DeliverTimeout, a, f), a, go, DeliverTimeout, DELIVER_TIMEOUT_PACKET,
                      if a.delivered.Some? then c.(timeout := HashAndTimeOnly(c.timeout, a.delivered.value)) else c,
                      if a.delivered.Some? then r.(timeout := Whole(r.timeout, a.delivered.value)) else r)
  {
    hide Extends, Consistent;
    assert f.trace + [] == f.trace;
  }

  /** Before the deadline at both looks, with no recv. */
  lemma DeliverRecvLine(opts: Options, a: Answer, f: Flight)
    ensures var c, r := f.t.cols, f.row;
            var go := Live(f.t) && f.t.packet.timeoutTimestamp >= a.now && f.t.packet.timeoutTimestamp >= a.later
                      && c.recv.hash.None?;
            BatchLine(f, StageStep(opts, DeliverRecv, a, f), a, go, DeliverRecv, DELIVER_RECV_PACKET,
                      if a.delivered.Some? then c.(recv := Whole(c.recv, a.delivered.value)) else c,
                      if a.delivered.Some? then r.(recv := Whole(r.recv, a.delivered.value)) else r)
  {
    hide Extends, Consistent;
    assert f.trace + [] == f.trace;
  }

  /** With a write ack whose ack is to be relayed, and no ack or timeout. */
  lemma DeliverAckLine(opts: Options, a: Answer, f: Flight)
    ensures var c, r := f.t.cols, f.row;
            var go := Live(f.t) && c.writeAck.hash.Some? && c.writeAck.status.Some?
                      && RelaysKind(opts, c.writeAck.status.value) && c.ack.hash.None? && c.timeout.hash.None?;
            BatchLine(f, StageStep(opts, DeliverAck, a, f), a, go, DeliverAck, DELIVER_ACK_PACKET,
                      if a.delivered.Some? then c.(ack := HashAndTimeOnly(c.ack, a.delivered.value)) else c,
                      if a.delivered.Some? then r.(ack := Whole(r.ack, a.delivered.value)) else r)
  {
    hide Extends, Consistent;
    assert f.trace + [] == f.trace;
  }

  /** The columns of a transfer that is done, and the status that says how. */
  predicate DoneAs(opts: Options, c: Columns, s: RelayStatus) {
    || (s == COMPLETE_WITH_TIMEOUT && c.timeout.hash.Some?)
    || (s == COMPLETE_WITH_ACK && c.timeout.hash.None? && c.recv.hash.Some? && c.writeAck.hash.Some?
        && c.writeAck.status.Some? && c.ack.hash.Some?)
    || (s == COMPLETE_WITH_WRITE_ACK_SUCCESS && c.timeout.hash.None? && c.recv.hash.Some? && c.writeAck.hash.Some?
        && c.writeAck.status == Some(SUCCESS) && c.ack.hash.None? && !opts.relaySuccessAcks)
    || (s == COMPLETE_WITH_WRITE_ACK_ERROR && c.timeout.hash.None? && c.recv.hash.Some? && c.writeAck.hash.Some?
        && (c.writeAck.status == Some(ERROR) || c.writeAck.status == Some(UNKNOWN)) && c.ack.hash.None?
        && !opts.relayErrorAcks)
  }

  /** It is done in one way or another. */
  predicate Done(opts: Options, c: Columns) {
    || DoneAs(opts, c, COMPLETE_WITH_TIMEOUT) || DoneAs(opts, c, COMPLETE_WITH_ACK)
    || DoneAs(opts, c, COMPLETE_WITH_WRITE_ACK_SUCCESS) || DoneAs(opts, c, COMPLETE_WITH_WRITE_ACK_ERROR)
  }

  /** What the finisher tests, and the status it chooses. */
  lemma DoneIsComplete(opts: Options, t: Transfer, s: RelayStatus)
    requires !t.errored
    ensures Done(opts, t.cols) <==> t.IsComplete(opts) && FinalStatus(t).Some?
    ensures DoneAs(opts, t.cols, s) <==> t.IsComplete(opts) && FinalStatus(t) == Some(s)
  {
  }

  /** The finisher sets the status that says how a transfer without an error is done, and leaves all others. */
  lemma FinishLine(opts: Options, a: Answer, f: Flight, s: RelayStatus)
    ensures var g := StageStep(opts, Finish, a, f);
            && (f.t.errored || !Done(opts, f.t.cols) ==> g == f)
            && (!f.t.errored && DoneAs(opts, f.t.cols, s) ==>
                  g == Flight(Transfer(f.t.packet, f.t.cols.(status := s), !a.statusSaved),
                              if a.statusSaved then f.row.(status := s) else f.row, f.trace))
  {
    hide Extends, Consistent, Done, DoneAs, FinalStatus, Transfer.IsComplete;
    if !f.t.errored {
      DoneIsComplete(opts, f.t, s);
    }
  }

  /** Of the table a stage changes the transfer's own row; and the gate of the write ack, when it first passes, the
      row under the empty key, if there is one. */
  lemma OtherRowsLine(opts: Options, stage: Stage, a: Answer, f: Flight, table: map<RowKey, Row>, k: RowKey)
    requires k in table && (k == f.t.Key() ==> table[k].cols == f.row)
    ensures var g, c := StageStep(opts, stage, a, f), f.t.cols;
            var first := stage.CheckWriteAckFinality? && Live(f.t) && c.writeAck.hash.Some? && c.writeAck.status.Some?
                         && RelaysKind(opts, c.writeAck.status.value) && a.statusSaved && a.reply == Some(true)
                         && c.writeAck.finalizedTime.None? && a.saved;
            var after := TableAfter(table, stage, a, f, g);
            && after.Keys == table.Keys && after[k].packet == table[k].packet
            && after[k].cols == if k == f.t.Key() then g.row
                                else if k == RowKey("", "", 0) && first
                                then table[k].cols.(writeAck := table[k].cols.writeAck.(finalizedTime := Some(a.later)))
                                else table[k].cols
  {
    hide StageStep, Consistent, Line;
    if stage.CheckWriteAckFinality? {
      WriteAckFinalityOf(opts, a, f);
    }
  }

  lemma WriteAckFinalityOf(opts: Options, a: Answer, f: Flight)
    ensures var g, c := StageStep(opts, CheckWriteAckFinality, a, f), f.t.cols;
            var first := Live(f.t) && c.writeAck.hash.Some? && c.writeAck.status.Some?
                         && RelaysKind(opts, c.writeAck.status.value) && a.statusSaved && a.reply == Some(true)
                         && c.writeAck.finalizedTime.None? && a.saved;
            && (if first then g.t.cols.writeAck.finalizedTime == Some(a.later)
                else g.t.cols.writeAck.finalizedTime == c.writeAck.finalizedTime)
            && (first && f.t.Key() == RowKey("", "", 0) ==> g.row.writeAck.finalizedTime == Some(a.later))
  {
    hide StageStep, Consistent, Extends;
    WriteAckFinalityLine(opts, a, f);
  }

  /** The seventeen stages in the order of the pipeline. */
  lemma Order()
    ensures StageAt(0) == CheckRecvDelivery && StageAt(1) == CheckInitialCommitment && StageAt(2) == CheckSendFinality
    ensures StageAt(3) == CheckTimeoutFinality && StageAt(4) == DeliverTimeout && StageAt(5) == RetryTimeout
    ensures StageAt(6) == TimeoutGasCost && StageAt(7) == DeliverRecv && StageAt(8) == RetryRecv
    ensures StageAt(9) == RecvGasCost && StageAt(10) == WaitForWriteAck && StageAt(11) == CheckWriteAckFinality
    ensures StageAt(12) == CheckPostReceiveCommitment && StageAt(13) == DeliverAck && StageAt(14) == RetryAck
    ensures StageAt(15) == AckGasCost && StageAt(16) == Finish && STAGES == 17
  {
  }
}
