/** Where the recorded txs and write ack statuses of a row come from. */
module Provenance {
  import opened Transfers
  import opened Stages
  import opened Pass
  import opened Dispatch
  import opened Dedup
  import opened Gates
  import opened StageTable

  datatype TxKind = RecvTx | AckTx | TimeoutTx

  function ColumnsOf(kind: TxKind, c: Columns): TxColumns {
    match kind
    case RecvTx => c.recv
    case AckTx => c.ack
    case TimeoutTx => c.timeout
  }

  /** The tx of that kind that the world told the stage of: one found on chain, or the batch tx it delivered. */
  function Told(kind: TxKind, stage: Stage, a: Answer): Option<BridgeTx> {
    match stage
    case CheckRecvDelivery => if kind.RecvTx? then a.foundTx else None
    case DeliverRecv => if kind.RecvTx? then a.delivered else None
    case CheckInitialCommitment => if kind.AckTx? then a.foundTx else if kind.TimeoutTx? then a.foundTimeoutTx else None
    case CheckPostReceiveCommitment =>
      if kind.AckTx? then a.foundTx else if kind.TimeoutTx? then a.foundTimeoutTx else None
    case DeliverAck => if kind.AckTx? then a.delivered else None
    case DeliverTimeout => if kind.TimeoutTx? then a.delivered else None
    case _ => None
  }

  /** The columns are those of the tx. */
  predicate Are(c: TxColumns, tx: BridgeTx) {
    c.hash == Some(tx.hash) && c.time == Some(tx.time) && c.relayer == Some(tx.relayer)
  }

  predicate LeavesTx(c: TxColumns, d: TxColumns) { c.hash == d.hash && c.time == d.time && c.relayer == d.relayer }

  /** A stage leaves the columns of a tx, forgets the tx, or takes over one it was told of. */
  predicate TakesOver(before: TxColumns, after: TxColumns, told: Option<BridgeTx>) {
    LeavesTx(before, after) || after.hash.None? || (told.Some? && Are(after, told.value))
  }

  lemma StageFollows(opts: Options, stage: Stage, a: Answer, f: Flight, kind: TxKind)
    ensures TakesOver(ColumnsOf(kind, f.row), ColumnsOf(kind, StageStep(opts, stage, a, f).row), Told(kind, stage, a))
  {
    hide StageStep, Extends, Consistent;
    match stage
    case CheckRecvDelivery => CheckRecvDeliveryLine(opts, a, f);
    case CheckInitialCommitment => CommitmentLine(opts, stage, a, f);
    case CheckSendFinality => SendFinalityLine(opts, a, f);
    case CheckTimeoutFinality => TimeoutFinalityLine(opts, a, f);
    case DeliverTimeout => DeliverTimeoutLine(opts, a, f);
    case RetryTimeout => RetryTimeoutLine(opts, a, f);
    case TimeoutGasCost => GasLine(opts, stage, a, f);
    case DeliverRecv => DeliverRecvLine(opts, a, f);
    case RetryRecv => RetryRecvLine(opts, a, f);
    case RecvGasCost => GasLine(opts, stage, a, f);
    case WaitForWriteAck => WriteAckLine(opts, a, f);
    case CheckWriteAckFinality => WriteAckFinalityLine(opts, a, f);
    case CheckPostReceiveCommitment => CommitmentLine(opts, stage, a, f);
    case DeliverAck => DeliverAckLine(opts, a, f);
    case RetryAck => RetryAckLine(opts, a, f);
    case AckGasCost => GasLine(opts, stage, a, f);
    case Finish => FinishFollows(opts, a, f, kind);
  }

  lemma FinishFollows(opts: Options, a: Answer, f: Flight, kind: TxKind)
    ensures LeavesTx(ColumnsOf(kind, f.row), ColumnsOf(kind, StageStep(opts, Finish, a, f).row))
    ensures StageStep(opts, Finish, a, f).row.writeAck == f.row.writeAck
  {
    hide StageStep, Extends, Consistent, Done, DoneAs;
    FinishLine(opts, a, f, COMPLETE_WITH_TIMEOUT);
    FinishLine(opts, a, f, COMPLETE_WITH_ACK);
    FinishLine(opts, a, f, COMPLETE_WITH_WRITE_ACK_SUCCESS);
    FinishLine(opts, a, f, COMPLETE_WITH_WRITE_ACK_ERROR);
    if !f.t.errored && Done(opts, f.t.cols) {
      DoneIsOne(opts, f.t.cols);
    }
  }

  lemma DoneIsOne(opts: Options, c: Columns)
    requires Done(opts, c)
    ensures || DoneAs(opts, c, COMPLETE_WITH_TIMEOUT) || DoneAs(opts, c, COMPLETE_WITH_ACK)
            || DoneAs(opts, c, COMPLETE_WITH_WRITE_ACK_SUCCESS) || DoneAs(opts, c, COMPLETE_WITH_WRITE_ACK_ERROR)
  {
    hide DoneAs;
  }

  /** The status of the write ack that the world told the stage of. */
  function ToldStatus(stage: Stage, a: Answer): Option<WriteAckStatus> {
    if !stage.WaitForWriteAck? then None
    else if a.writeAck.Decoded? then Some(a.writeAck.status)
    else if a.writeAck.Undecodable? then Some(UNKNOWN)
    else None
  }

  lemma StatusFollows(opts: Options, stage: Stage, a: Answer, f: Flight)
    ensures var s := StageStep(opts, stage, a, f).row.writeAck.status;
      s == f.row.writeAck.status || s == ToldStatus(stage, a)
  {
    hide StageStep, Consistent;
    match stage
    case WaitForWriteAck => WriteAckLine(opts, a, f);
    case _ =>
  }

  /** The step moves a copy of the row through a stage that is told of a tx with these columns. */
  predicate Tells(s: System, step: Step, k: RowKey, kind: TxKind, c: TxColumns) {
    && step.Move? && step.id in s.copies && s.copies[step.id].t.Key() == k && |s.copies[step.id].answers| < STAGES
    && var told := Told(kind, StageAt(|s.copies[step.id].answers|), step.answer);
       told.Some? && Are(c, told.value)
  }

  predicate TellsStatus(s: System, step: Step, k: RowKey, status: WriteAckStatus) {
    && step.Move? && step.id in s.copies && s.copies[step.id].t.Key() == k && |s.copies[step.id].answers| < STAGES
    && ToldStatus(StageAt(|s.copies[step.id].answers|), step.answer) == Some(status)
  }

  /** The row had these columns before, or was told of them now. */
  predicate HadOrTold(s: System, step: Step, k: RowKey, kind: TxKind, c: TxColumns) {
    || c.hash.None? || (k in s.table && LeavesTx(ColumnsOf(kind, s.table[k].cols), c)) || Tells(s, step, k, kind, c)
  }

  predicate HadOrToldStatus(s: System, step: Step, k: RowKey, status: Option<WriteAckStatus>) {
    || status.None? || (k in s.table && s.table[k].cols.writeAck.status == status)
    || TellsStatus(s, step, k, status.value)
  }

  lemma MoveTells(cfg: Config, s: System, id: nat, a: Answer, k: RowKey, kind: TxKind)
    requires WellFormed(s) && Enabled(cfg, s, Move(id, a)) && k in ApplyMove(cfg, s, id, a).table
    ensures var row := ApplyMove(cfg, s, id, a).table[k].cols;
      && HadOrTold(s, Move(id, a), k, kind, ColumnsOf(kind, row))
      && HadOrToldStatus(s, Move(id, a), k, row.writeAck.status)
  {
    hide StageStep, StageAt, EmitsTwice, Consistent, Extends, TableAfter, WellFormed, ColumnsOf, Told;
    var c := s.copies[id];
    var opts, stage, f := OptionsFor(cfg, c.t.packet), StageAt(|c.answers|), FlightOf(s, c);
    MoveFacts(cfg, s, id, a);
    StageFollows(opts, stage, a, f, kind);
    StatusFollows(opts, stage, a, f);
  }

  lemma PushTells(cfg: Config, s: System, saved: bool, k: RowKey, kind: TxKind)
    requires s.pending != [] && k in ApplyPush(cfg, s, saved).table
    ensures var row := ApplyPush(cfg, s, saved).table[k].cols;
      && k in s.table && LeavesTx(ColumnsOf(kind, s.table[k].cols), ColumnsOf(kind, row))
      && row.writeAck == s.table[k].cols.writeAck
  {
    hide HasPipeline, Accepts, TransferKeyOf;
  }

  lemma StepTells(cfg: Config, s: System, step: Step, k: RowKey, kind: TxKind)
    requires WellFormed(s) && Enabled(cfg, s, step) && k in Apply(cfg, s, step).table
    ensures var row := Apply(cfg, s, step).table[k].cols;
      HadOrTold(s, step, k, kind, ColumnsOf(kind, row)) && HadOrToldStatus(s, step, k, row.writeAck.status)
  {
    hide ApplyMove, ApplyPush, InFlight, WellFormed, Tells, TellsStatus;
    match step
    case Move(id, a) => MoveTells(cfg, s, id, a, k, kind);
    case Push(saved) => PushTells(cfg, s, saved, k, kind);
    case _ =>
  }

  /** In every state of every run, disciplined or not: hash, time and relayer of every recorded tx are those of one tx
      of its kind that a stage working for that row found on chain or delivered. */
  lemma {:induction false} TxsWereTold(cfg: Config, ss: seq<System>, steps: seq<Step>, n: nat, k: RowKey, kind: TxKind)
    returns (i: nat)
    requires IsRun(cfg, ss, steps) && n < |ss| && k in ss[n].table && ColumnsOf(kind, ss[n].table[k].cols).hash.Some?
    ensures i < n && Tells(ss[i], steps[i], k, kind, ColumnsOf(kind, ss[n].table[k].cols))
  {
    hide Apply, Enabled, Remembers, Tells, ColumnsOf;
    var s, step := ss[n - 1], steps[n - 1];
    RemembersRun(cfg, ss, steps, n - 1);
    WellFormedOf(cfg, s);
    StepTells(cfg, s, step, k, kind);
    if Tells(s, step, k, kind, ColumnsOf(kind, ss[n].table[k].cols)) {
      i := n - 1;
    } else {
      i := TxsWereTold(cfg, ss, steps, n - 1, k, kind);
      SameTold(ss[i], steps[i], k, kind, ColumnsOf(kind, s.table[k].cols), ColumnsOf(kind, ss[n].table[k].cols));
    }
  }

  lemma SameTold(s: System, step: Step, k: RowKey, kind: TxKind, c: TxColumns, d: TxColumns)
    requires Tells(s, step, k, kind, c) && LeavesTx(c, d)
    ensures Tells(s, step, k, kind, d)
  {
  }

  /** And the status of every recorded write ack is one that was decoded for that row, or unknown for one that could
      not be decoded. */
  lemma {:induction false} StatusWasTold(cfg: Config, ss: seq<System>, steps: seq<Step>, n: nat, k: RowKey)
    returns (i: nat)
    requires IsRun(cfg, ss, steps) && n < |ss| && k in ss[n].table && ss[n].table[k].cols.writeAck.status.Some?
    ensures i < n && TellsStatus(ss[i], steps[i], k, ss[n].table[k].cols.writeAck.status.value)
  {
    hide Apply, Enabled, Remembers, TellsStatus;
    var s, step := ss[n - 1], steps[n - 1];
    RemembersRun(cfg, ss, steps, n - 1);
    WellFormedOf(cfg, s);
    StepTells(cfg, s, step, k, RecvTx);
    if TellsStatus(s, step, k, ss[n].table[k].cols.writeAck.status.value) {
      i := n - 1;
    } else {
      i := StatusWasTold(cfg, ss, steps, n - 1, k);
    }
  }

  lemma StageNeverFails(opts: Options, stage: Stage, a: Answer, f: Flight)
    ensures StageStep(opts, stage, a, f).row.status == FAILED ==> f.row.status == FAILED
  {
  }

  /** The step is the push of an entry of that row that no pipeline takes, and its mark is saved. */
  predicate Fails(cfg: Config, s: System, step: Step, k: RowKey) {
    && step == Push(true) && s.pending != []
    && s.pending[0].row.Key() == k && !Routable(cfg, s, s.pending[0].row.packet)
  }

  lemma FailsStep(cfg: Config, s: System, step: Step, k: RowKey)
    requires WellFormed(s) && Enabled(cfg, s, step) && k in Apply(cfg, s, step).table
    requires Apply(cfg, s, step).table[k].cols.status == FAILED
    ensures (k in s.table && s.table[k].cols.status == FAILED) || Fails(cfg, s, step, k)
  {
    hide ApplyMove, ApplyPush, InFlight, WellFormed;
    match step
    case Move(id, a) =>
      hide StageStep, StageAt, EmitsTwice, Consistent, Extends, TableAfter;
      var c := s.copies[id];
      MoveFacts(cfg, s, id, a);
      StageNeverFails(OptionsFor(cfg, c.t.packet), StageAt(|c.answers|), a, FlightOf(s, c));
    case Push(saved) =>
      var row := s.pending[0].row;
      if Routable(cfg, s, row.packet) {
        RoutableEnters(cfg, s, saved, PipelineOf(row.packet), TransferKeyOf(Load(row)));
      } else {
        UnroutableFails(cfg, s, saved);
      }
    case _ =>
  }

  /** And a row is FAILED only because an entry of it was pushed that no pipeline took. */
  lemma {:induction false} FailedWasUnroutable(cfg: Config, ss: seq<System>, steps: seq<Step>, n: nat, k: RowKey)
    returns (i: nat)
    requires IsRun(cfg, ss, steps) && n < |ss| && k in ss[n].table && ss[n].table[k].cols.status == FAILED
    ensures i < n && Fails(cfg, ss[i], steps[i], k)
  {
    hide Apply, Enabled, Remembers, Fails;
    var s, step := ss[n - 1], steps[n - 1];
    RemembersRun(cfg, ss, steps, n - 1);
    WellFormedOf(cfg, s);
    FailsStep(cfg, s, step, k);
    if Fails(cfg, s, step, k) {
      i := n - 1;
    } else {
      i := FailedWasUnroutable(cfg, ss, steps, n - 1, k);
    }
  }
}
