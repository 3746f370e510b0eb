/** The processors and the middleware as they are written: they update a transfer object in place and the
    table through storage calls. Each is proved to do exactly what `Stages` says of it. */
module Processors {
  import opened Transfers
  import opened Stages

  /** The statements that update one row. */
  datatype Update =
    | SetStatus(status: RelayStatus)
    | SetSourceTxFinalizedTime(time: Time)
    | SetRecvTx(tx: BridgeTx)
    | SetAckTx(tx: BridgeTx)
    | SetTimeoutTx(tx: BridgeTx)
    | SetWriteAckTx(hash: string, time: Time, ack: WriteAckStatus)
    | SetWriteAckTxFinalizedTime(time: Time)
    | SetRecvTxGasCost(cost: int)
    | SetAckTxGasCost(cost: int)
    | SetTimeoutTxGasCost(cost: int)
    | ClearRecvTx
    | ClearAckTx
    | ClearTimeoutTx

  function Updated(c: Columns, u: Update): Columns {
    match u
    case SetStatus(s) => c.(status := s)
    case SetSourceTxFinalizedTime(t) => c.(sourceTxFinalizedTime := Some(t))
    case SetRecvTx(tx) => WithRecv(c, tx)
    case SetAckTx(tx) => WithAck(c, tx)
    case SetTimeoutTx(tx) => WithTimeout(c, tx)
    case SetWriteAckTx(h, t, s) => c.(writeAck := c.writeAck.(hash := Some(h), time := Some(t), status := Some(s)))
    case SetWriteAckTxFinalizedTime(t) => WithWriteAckFinality(c, t)
    case SetRecvTxGasCost(x) => c.(recv := c.recv.(gasCost := Some(x)))
    case SetAckTxGasCost(x) => c.(ack := c.ack.(gasCost := Some(x)))
    case SetTimeoutTxGasCost(x) => c.(timeout := c.timeout.(gasCost := Some(x)))
    case ClearRecvTx => c.(recv := Cleared(c.recv))
    case ClearAckTx => c.(ack := Cleared(c.ack))
    case ClearTimeoutTx => c.(timeout := Cleared(c.timeout))
  }

  /** An update of a row that is not there succeeds and changes nothing. */
  function Put(rows: map<RowKey, Row>, k: RowKey, u: Update): map<RowKey, Row> {
    if k in rows then rows[k := rows[k].(cols := Updated(rows[k].cols, u))] else rows
  }

  function PutAll(rows: map<RowKey, Row>, us: seq<(RowKey, Update)>): map<RowKey, Row> {
    if us == [] then rows
    else Put(PutAll(rows, us[..|us| - 1]), us[|us| - 1].0, us[|us| - 1].1)
  }

  class Storage {
    var rows: map<RowKey, Row>

    /** One statement on its own; ok is whether the database carries it out. */
    method Exec(k: RowKey, u: Update, ok: bool) returns (err: bool)
      modifies this
      ensures err == !ok && rows == if ok then Put(old(rows), k, u) else old(rows)
    {
      if ok {
        rows := Put(rows, k, u);
      }
      err := !ok;
    }

    /** Several statements in a transaction, of which the one at failAt fails, if there is one;
        committed is whether the commit succeeds. All of them take effect, or none. */
    method ExecTx(us: seq<(RowKey, Update)>, failAt: Option<nat>, committed: bool) returns (err: bool)
      modifies this
      ensures err <==> !committed || (failAt.Some? && failAt.value < |us|)
      ensures rows == if err then old(rows) else PutAll(old(rows), us)
    {
      var begun := rows;
      var i := 0;
      while i < |us|
        invariant 0 <= i <= |us| && rows == PutAll(begun, us[..i])
        invariant failAt.Some? ==> i <= failAt.value
      {
        if failAt == Some(i) {
          rows := begun;
          return true;
        }
        assert us[..i + 1][..i] == us[..i];
        rows := Put(rows, us[i].0, us[i].1);
        i := i + 1;
      }
      assert us[..i] == us;
      if !committed {
        rows := begun;
      }
      return !committed;
    }
  }

  class IBCV2Transfer {
    const packet: Packet
    var state: RelayStatus
    var sourceTxFinalizedTime: Option<Time>
    var recv: TxColumns
    var writeAck: WriteAckColumns
    var ack: TxColumns
    var timeout: TxColumns
    var processingError: bool
    ghost var trace: seq<Event>

    constructor (row: Row)
      ensures View() == Load(row) && trace == []
    {
      packet := row.packet;
      state := row.cols.status;
      sourceTxFinalizedTime := row.cols.sourceTxFinalizedTime;
      recv, writeAck, ack, timeout := row.cols.recv, row.cols.writeAck, row.cols.ack, row.cols.timeout;
      processingError := false;
      trace := [];
    }

    function View(): Transfer
      reads this
    {
      Transfer(packet, Columns(state, sourceTxFinalizedTime, recv, writeAck, ack, timeout), processingError)
    }

    function Key(): RowKey { KeyOf(packet) }
  }

  /** f is what the object t and its row in the table hold; f.row is free if there is no such row. */
  ghost predicate Matches(t: IBCV2Transfer, db: Storage, f: Flight)
    reads t, db
  {
    f.t == t.View() && f.trace == t.trace && (t.Key() in db.rows ==> f.row == db.rows[t.Key()].cols)
  }

  /** The transfer and the table after a processor returned are what g says; an error is left for the
      middleware to put on the transfer. */
  ghost predicate Became(t: IBCV2Transfer, db: Storage, rows: map<RowKey, Row>, stage: Stage, a: Answer, err: bool,
                         f: Flight, g: Flight)
    reads t, db
  {
    && t.View() == (if err then g.t.(errored := f.t.errored) else g.t)
    && (err ==> g.t.errored)
    && t.trace == g.trace
    && db.rows == TableAfter(rows, stage, a, f, g)
  }

  /** What a stage that makes at most the one update u does to the table. */
  lemma TableAfterPut(rows: map<RowKey, Row>, stage: Stage, a: Answer, f: Flight, g: Flight, u: Update)
    requires !stage.CheckWriteAckFinality?
    requires f.t.Key() in rows ==> rows[f.t.Key()].cols == f.row
    ensures g.row == f.row ==> TableAfter(rows, stage, a, f, g) == rows
    ensures g.row == Updated(f.row, u) ==> TableAfter(rows, stage, a, f, g) == Put(rows, f.t.Key(), u)
  {
    hide Updated;
  }

  method CheckRecvPacketDelivery(opts: Options, t: IBCV2Transfer, db: Storage, a: Answer, ghost f: Flight)
    returns (err: bool)
    requires Matches(t, db, f) && Guard(opts, CheckRecvDelivery, t.View(), a.now)
    modifies t, db
    ensures Became(t, db, old(db.rows), CheckRecvDelivery, a, err, f, Effect(opts, CheckRecvDelivery, a, f))
  {
    hide Extends, Consistent;
    if a.reply.None? { return true; }
    t.trace := t.trace + [Asked(CheckRecvDelivery, a.reply.value)];
    if !a.reply.value { return false; }
    if a.foundTx.None? { return true; }
    var tx := a.foundTx.value;
    err := db.Exec(t.Key(), SetRecvTx(tx), a.saved);
    if err { return; }
    t.recv := Record(t.recv, tx);
  }

  lemma CommitmentCase(opts: Options, stage: Stage, a: Answer, f: Flight)
    requires stage.ChecksCommitment() && Guard(opts, stage, f.t, a.now)
    ensures Effect(opts, stage, a, f) == CommitmentEffect(stage, a, f)
  {
    hide Extends, Consistent, CommitmentEffect;
  }

  method CheckPacketCommitment(opts: Options, stage: Stage, t: IBCV2Transfer, db: Storage, a: Answer, ghost f: Flight)
    returns (err: bool)
    requires stage.ChecksCommitment() && Matches(t, db, f) && Guard(opts, stage, t.View(), a.now)
    modifies t, db
    ensures Became(t, db, old(db.rows), stage, a, err, f, Effect(opts, stage, a, f))
  {
    hide Extends, Consistent, TableAfter, Put, Effect;
    CommitmentCase(opts, stage, a, f);
    ghost var u := if a.foundTx.Some? then SetAckTx(a.foundTx.value)
                   else if a.foundTimeoutTx.Some? then SetTimeoutTx(a.foundTimeoutTx.value) else ClearAckTx;
    TableAfterPut(db.rows, stage, a, f, Effect(opts, stage, a, f), u);
    if a.reply.None? { return true; }
    t.trace := t.trace + [Asked(stage, a.reply.value)];
    if a.reply.value { return false; }
    if a.foundTx.Some? && a.foundTimeoutTx.Some? { return true; }
    if a.foundTx.Some? {
      err := db.Exec(t.Key(), SetAckTx(a.foundTx.value), a.saved);
      if err { return; }
      t.ack := Record(t.ack, a.foundTx.value);
    } else if a.foundTimeoutTx.Some? {
      err := db.Exec(t.Key(), SetTimeoutTx(a.foundTimeoutTx.value), a.saved);
      if err { return; }
      t.timeout := Record(t.timeout, a.foundTimeoutTx.value);
    } else {
      return true;
    }
  }

  method CheckSendFinalityProcess(opts: Options, t: IBCV2Transfer, db: Storage, a: Answer, ghost f: Flight)
    returns (err: bool)
    requires Matches(t, db, f) && Guard(opts, CheckSendFinality, t.View(), a.now)
    modifies t, db
    ensures Became(t, db, old(db.rows), CheckSendFinality, a, err, f, Effect(opts, CheckSendFinality, a, f))
  {
    hide Extends, Consistent;
    if a.reply.None? { return true; }
    t.trace := t.trace + [Asked(CheckSendFinality, a.reply.value)];
    if !a.reply.value { return true; }
    if t.sourceTxFinalizedTime.None? {
      err := db.Exec(t.Key(), SetSourceTxFinalizedTime(a.later), a.saved);
      if err { return; }
      t.sourceTxFinalizedTime := Some(a.later);
    }
    return false;
  }

  method CheckTimeoutFinalityProcess(opts: Options, t: IBCV2Transfer, db: Storage, a: Answer, ghost f: Flight)
    returns (err: bool)
    requires Matches(t, db, f) && Guard(opts, CheckTimeoutFinality, t.View(), a.now)
    modifies t, db
    ensures Became(t, db, old(db.rows), CheckTimeoutFinality, a, err, f, Effect(opts, CheckTimeoutFinality, a, f))
  {
    hide Extends, Consistent;
    if a.reply.None? { return true; }
    t.trace := t.trace + [Asked(CheckTimeoutFinality, a.reply.value)];
    return !a.reply.value;
  }

  predicate Retries(stage: Stage) { stage.RetryTimeout? || stage.RetryRecv? || stage.RetryAck? }

  /** The three retry processors: only the row forgets the tx. */
  method RetryPacket(opts: Options, stage: Stage, t: IBCV2Transfer, db: Storage, a: Answer, ghost f: Flight)
    returns (err: bool)
    requires Retries(stage) && Matches(t, db, f) && Guard(opts, stage, t.View(), a.now)
    modifies t, db
    ensures Became(t, db, old(db.rows), stage, a, err, f, Effect(opts, stage, a, f))
  {
    hide Extends, Consistent, Agrees, RowMoves, TableAfter, Put;
    var clear := if stage.RetryTimeout? then ClearTimeoutTx else if stage.RetryRecv? then ClearRecvTx else ClearAckTx;
    TableAfterPut(db.rows, stage, a, f, Effect(opts, stage, a, f), clear);
    if a.reply.None? { return true; }
    t.trace := t.trace + [Asked(stage, a.reply.value)];
    if !a.reply.value { return false; }
    err := db.Exec(t.Key(), clear, a.saved);
    return true;
  }

  predicate CalculatesGas(stage: Stage) { stage.TimeoutGasCost? || stage.RecvGasCost? || stage.AckGasCost? }

  /** The three gas calculators. */
  method CalculateTxGas(opts: Options, stage: Stage, t: IBCV2Transfer, db: Storage, a: Answer, ghost f: Flight)
    returns (err: bool)
    requires CalculatesGas(stage) && Matches(t, db, f) && Guard(opts, stage, t.View(), a.now)
    modifies db
    ensures Became(t, db, old(db.rows), stage, a, err, f, Effect(opts, stage, a, f))
  {
    hide Extends, Consistent, Agrees, RowMoves;
    if a.gasCost.None? { return true; }
    var cost := a.gasCost.value;
    var update := if stage.TimeoutGasCost? then SetTimeoutTxGasCost(cost)
               else if stage.RecvGasCost? then SetRecvTxGasCost(cost)
               else SetAckTxGasCost(cost);
    err := db.Exec(t.Key(), update, a.saved);
  }

  method WaitForWriteAckProcess(opts: Options, t: IBCV2Transfer, db: Storage, a: Answer, ghost f: Flight)
    returns (err: bool)
    requires Matches(t, db, f) && Guard(opts, WaitForWriteAck, t.View(), a.now)
    modifies t, db
    ensures Became(t, db, old(db.rows), WaitForWriteAck, a, err, f, Effect(opts, WaitForWriteAck, a, f))
  {
    hide Extends, Consistent;
    if a.writeAck.NotInTx? {
      err := db.Exec(t.Key(), ClearRecvTx, a.saved);
      return true;
    }
    if a.writeAck.Unavailable? { return true; }
    var status := if a.writeAck.Undecodable? then UNKNOWN else a.writeAck.status;
    var hash := t.recv.hash.value;
    var time := if t.recv.time.Some? then t.recv.time.value else 0;
    err := db.Exec(t.Key(), SetWriteAckTx(hash, time, status), a.saved);
    if err { return; }
    t.writeAck := t.writeAck.(hash := Some(hash), time := Some(time), status := Some(status));
  }

  /** The finalized time is written under an empty key. */
  method CheckWriteAckFinalityProcess(opts: Options, t: IBCV2Transfer, db: Storage, a: Answer, ghost f: Flight)
    returns (err: bool)
    requires Matches(t, db, f) && Guard(opts, CheckWriteAckFinality, t.View(), a.now)
    modifies t, db
    ensures Became(t, db, old(db.rows), CheckWriteAckFinality, a, err, f, Effect(opts, CheckWriteAckFinality, a, f))
  {
    hide Extends, Consistent;
    if a.reply.None? { return true; }
    t.trace := t.trace + [Asked(CheckWriteAckFinality, a.reply.value)];
    if !a.reply.value { return true; }
    if t.writeAck.finalizedTime.None? {
      err := db.Exec(EMPTY_KEY, SetWriteAckTxFinalizedTime(a.later), a.saved);
      if err { return; }
      t.writeAck := t.writeAck.(finalizedTime := Some(a.later));
    }
    return false;
  }

  /** The processor behind an unbatched stage. */
  method ProcessInternal(opts: Options, stage: Stage, t: IBCV2Transfer, db: Storage, a: Answer, ghost f: Flight)
    returns (err: bool)
    requires !stage.Batched() && !stage.Finish? && Matches(t, db, f) && Guard(opts, stage, t.View(), a.now)
    modifies t, db
    ensures Became(t, db, old(db.rows), stage, a, err, f, Effect(opts, stage, a, f))
  {
    hide Effect, Became, Matches, Guard;
    match stage {
      case CheckRecvDelivery => err := CheckRecvPacketDelivery(opts, t, db, a, f);
      case CheckInitialCommitment => err := CheckPacketCommitment(opts, stage, t, db, a, f);
      case CheckSendFinality => err := CheckSendFinalityProcess(opts, t, db, a, f);
      case CheckTimeoutFinality => err := CheckTimeoutFinalityProcess(opts, t, db, a, f);
      case RetryTimeout => err := RetryPacket(opts, stage, t, db, a, f);
      case TimeoutGasCost => err := CalculateTxGas(opts, stage, t, db, a, f);
      case RetryRecv => err := RetryPacket(opts, stage, t, db, a, f);
      case RecvGasCost => err := CalculateTxGas(opts, stage, t, db, a, f);
      case WaitForWriteAck => err := WaitForWriteAckProcess(opts, t, db, a, f);
      case CheckWriteAckFinality => err := CheckWriteAckFinalityProcess(opts, t, db, a, f);
      case CheckPostReceiveCommitment => err := CheckPacketCommitment(opts, stage, t, db, a, f);
      case RetryAck => err := RetryPacket(opts, stage, t, db, a, f);
      case AckGasCost => err := CalculateTxGas(opts, stage, t, db, a, f);
    }
  }

  /** IBCV2ProcessorMW.Process. */
  method ProcessMW(opts: Options, stage: Stage, t: IBCV2Transfer, db: Storage, a: Answer, ghost f: Flight)
    requires !stage.Batched() && !stage.Finish? && Matches(t, db, f)
    modifies t, db
    ensures Became(t, db, old(db.rows), stage, a, false, f, SingleStep(opts, stage, a, f))
  {
    hide Extends, Consistent, Effect, Guard, TableAfter, Put, Updated;
    PutStatus(db.rows, t.Key(), stage.Status());
    TableUnchanged(db.rows, stage, a, f, SingleStep(opts, stage, a, f));
    if t.processingError || t.state == FAILED || !Guard(opts, stage, t.View(), a.now) {
      return;
    }
    var err := db.Exec(t.Key(), SetStatus(stage.Status()), a.statusSaved);
    if err {
      t.processingError := true;
      return;
    }
    t.state := stage.Status();
    GuardIgnoresStatus(opts, stage, f.t, a.now, stage.Status());
    StatusThenStage(old(db.rows), stage, a, f, SingleStep(opts, stage, a, f), stage.Status());
    err := ProcessInternal(opts, stage, t, db, a, WithStatus(f, stage.Status()));
    if err {
      t.processingError := true;
    }
  }

  lemma PutStatus(rows: map<RowKey, Row>, k: RowKey, s: RelayStatus)
    ensures var after := Put(rows, k, SetStatus(s));
            && (k in after <==> k in rows)
            && (k in rows ==> after[k].cols == rows[k].cols.(status := s))
  {
  }

  lemma TableUnchanged(rows: map<RowKey, Row>, stage: Stage, a: Answer, f: Flight, g: Flight)
    requires f.t.Key() in rows ==> rows[f.t.Key()].cols == f.row
    ensures g.row == f.row && g.t.cols.writeAck == f.t.cols.writeAck ==> TableAfter(rows, stage, a, f, g) == rows
  {
  }

  /** A status update and then a stage leave the table that the two of them in one go leave. */
  lemma StatusThenStage(rows: map<RowKey, Row>, stage: Stage, a: Answer, f: Flight, g: Flight, s: RelayStatus)
    ensures TableAfter(Put(rows, f.t.Key(), SetStatus(s)), stage, a, WithStatus(f, s), g)
            == TableAfter(rows, stage, a, f, g)
  {
  }

  /** StateFinisher.Process. */
  method FinishProcess(opts: Options, t: IBCV2Transfer, db: Storage, a: Answer, ghost f: Flight)
    requires Matches(t, db, f)
    modifies t, db
    ensures Became(t, db, old(db.rows), Finish, a, false, f, FinishStep(opts, a, f))
  {
    hide Extends, Consistent, TableAfter, Put;
    ghost var g := FinishStep(opts, a, f);
    TableAfterPut(db.rows, Finish, a, f, g, SetStatus(g.t.cols.status));
    if t.processingError || !t.View().IsComplete(opts) {
      return;
    }
    if t.timeout.hash.Some? {
      t.state := COMPLETE_WITH_TIMEOUT;
    } else {
      if t.writeAck.status.None? {
        return;
      }
      if t.ack.hash.Some? {
        t.state := COMPLETE_WITH_ACK;
      } else if t.writeAck.status.value.SUCCESS? {
        t.state := COMPLETE_WITH_WRITE_ACK_SUCCESS;
      } else {
        t.state := COMPLETE_WITH_WRITE_ACK_ERROR;
      }
    }
    var err := db.Exec(t.Key(), SetStatus(t.state), a.statusSaved);
    if err {
      t.processingError := true;
    }
  }
}
