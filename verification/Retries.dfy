/** What becomes of a tx that must be retried: the row forgets it, and the next snapshot has the row without it. */
module Retries {
  import opened Transfers
  import opened Stages
  import opened Pass
  import opened Dispatch
  import opened Dedup
  import opened Runs
  import opened Lifecycle
  import opened Outcomes
  import StageTable

  predicate RetryStage(stage: Stage) { stage.RetryTimeout? || stage.RetryRecv? || stage.RetryAck? }

  /** The columns of the tx that the retry stage is about. */
  function TxOf(stage: Stage, c: Columns): TxColumns {
    if stage.RetryTimeout? then c.timeout else if stage.RetryRecv? then c.recv else c.ack
  }

  function WithTx(stage: Stage, c: Columns, tx: TxColumns): Columns {
    if stage.RetryTimeout? then c.(timeout := tx) else if stage.RetryRecv? then c.(recv := tx) else c.(ack := tx)
  }

  /** The stage asks about the transfer's tx: it is live with hash and time, and a recv is not settled by its write
      ack yet. */
  predicate AsksToRetry(stage: Stage, t: Transfer) {
    && Live(t) && TxOf(stage, t.cols).hash.Some? && TxOf(stage, t.cols).time.Some?
    && (stage.RetryRecv? ==> t.cols.writeAck.hash.None?)
  }

  /** A retry stage that asks, with its status saved: the row loses hash and time of exactly that tx if and only if
      the answer is yes and the update succeeds, and keeps every other column but the status; memory keeps the tx;
      the transfer goes on without an error if and only if the answer is no. */
  lemma RetryExactly(opts: Options, stage: Stage, a: Answer, f: Flight)
    requires RetryStage(stage) && AsksToRetry(stage, f.t) && a.statusSaved
    ensures var g, tx := StageStep(opts, stage, a, f), TxOf(stage, f.row);
      && g.row == WithTx(stage, f.row, TxOf(stage, g.row)).(status := g.row.status)
      && (a.reply == Some(true) && a.saved ==>
            TxOf(stage, g.row).hash.None? && TxOf(stage, g.row) == tx.(hash := None, time := None))
      && (!(a.reply == Some(true) && a.saved) ==> TxOf(stage, g.row) == tx)
      && g.t.cols == f.t.cols.(status := g.t.cols.status)
      && (!g.t.errored <==> a.reply == Some(false))
  {
    hide StageStep, Extends, Consistent;
    match stage
    case RetryTimeout => StageTable.RetryTimeoutLine(opts, a, f);
    case RetryRecv => StageTable.RetryRecvLine(opts, a, f);
    case RetryAck => StageTable.RetryAckLine(opts, a, f);
  }

  /** No copy of the row can do anything more. */
  predicate Spent(s: System, k: RowKey) {
    forall id :: id in s.copies && s.copies[id].t.Key() == k ==> s.copies[id].t.errored
  }

  /** The step brings the row into a pipeline. */
  predicate BringsIn(cfg: Config, s: System, step: Step, k: RowKey) {
    step.Push? && s.pending != [] && s.pending[0].row.Key() == k && Accepts(cfg, s)
  }

  lemma SpentMove(cfg: Config, s: System, id: nat, a: Answer, k: RowKey)
    requires WellFormed(s) && Enabled(cfg, s, Move(id, a)) && Spent(s, k) && k in s.table
    ensures Spent(ApplyMove(cfg, s, id, a), k)
    ensures k in ApplyMove(cfg, s, id, a).table && ApplyMove(cfg, s, id, a).table[k] == s.table[k]
  {
    hide StageStep, StageAt, EmitsTwice, Consistent, Extends, TableAfter, WellFormed;
    var c := s.copies[id];
    MoveFacts(cfg, s, id, a);
    MoveShape(cfg, s, id, a);
    if c.t.Key() == k {
      var opts, stage, f := OptionsFor(cfg, c.t.packet), StageAt(|c.answers|), FlightOf(s, c);
      assert StageStep(opts, stage, a, f) == f;
    }
  }

  lemma SpentPush(cfg: Config, s: System, saved: bool, k: RowKey)
    requires Sound(cfg, s) && s.pending != [] && Spent(s, k) && k in s.table && Configured(cfg, s.table[k].packet)
    requires !BringsIn(cfg, s, Push(saved), k)
    ensures Spent(ApplyPush(cfg, s, saved), k)
    ensures k in ApplyPush(cfg, s, saved).table && ApplyPush(cfg, s, saved).table[k] == s.table[k]
  {
    hide Sound, TransferKeyOf, PipelineOf, Accepts;
    PushedPacket(cfg, s);
  }

  lemma SpentStep(cfg: Config, s: System, step: Step, k: RowKey)
    requires Sound(cfg, s) && Enabled(cfg, s, step) && Spent(s, k) && k in s.table && Configured(cfg, s.table[k].packet)
    requires !BringsIn(cfg, s, step, k)
    ensures Spent(Apply(cfg, s, step), k)
    ensures k in Apply(cfg, s, step).table && Apply(cfg, s, step).table[k] == s.table[k]
  {
    hide ApplyMove, ApplyPush, InFlight, BringsIn, Configured, Sound, WellFormed;
    SoundForm(cfg, s);
    match step
    case Move(id, a) => SpentMove(cfg, s, id, a, k);
    case Push(saved) => SpentPush(cfg, s, saved, k);
    case _ =>
  }

  lemma SoundForm(cfg: Config, s: System)
    requires Sound(cfg, s)
    ensures WellFormed(s)
  {
    hide CopiesOk, RowsOk, PendingOk;
  }

  /** Once every copy of a row is errored, the row stays as it is until it is brought in again. */
  lemma {:induction false} SpentRun(cfg: Config, ss: seq<System>, steps: seq<Step>, m: nat, n: nat, k: RowKey)
    requires DisciplinedRun(cfg, ss, steps) && m <= n < |ss|
    requires Spent(ss[m], k) && k in ss[m].table && Configured(cfg, ss[m].table[k].packet)
    requires forall i :: m <= i < n ==> !BringsIn(cfg, ss[i], steps[i], k)
    ensures Spent(ss[n], k) && k in ss[n].table && ss[n].table[k] == ss[m].table[k]
  {
    hide Apply, Enabled, Disciplined, Sound, Spent, BringsIn, Configured;
    if m < n {
      SpentRun(cfg, ss, steps, m, n - 1, k);
      SoundRun(cfg, ss, steps, n - 1);
      SpentStep(cfg, ss[n - 1], steps[n - 1], k);
    }
  }

  /** The move takes a live copy through a retry stage, which says yes and clears the tx. */
  predicate ClearsTx(s: System, id: nat, a: Answer) {
    && id in s.copies && |s.copies[id].answers| < STAGES
    && RetryStage(StageAt(|s.copies[id].answers|)) && AsksToRetry(StageAt(|s.copies[id].answers|), s.copies[id].t)
    && a.statusSaved && a.reply == Some(true) && a.saved
  }

  /** The row is there without that tx. */
  predicate Forgotten(s: System, k: RowKey, stage: Stage) {
    k in s.table && TxOf(stage, s.table[k].cols).hash.None?
  }

  /** In a sound state such a move leaves the row without the tx, and every copy of the row errored. */
  lemma RetriedMove(cfg: Config, s: System, id: nat, a: Answer)
    requires Sound(cfg, s) && Enabled(cfg, s, Move(id, a)) && ClearsTx(s, id, a)
    ensures var s', k := ApplyMove(cfg, s, id, a), s.copies[id].t.Key();
      && Spent(s', k) && Forgotten(s', k, StageAt(|s.copies[id].answers|)) && Configured(cfg, s'.table[k].packet)
  {
    hide StageStep, StageAt, EmitsTwice, Consistent, Extends, TableAfter, Sound, WellFormed, AsksToRetry, IsPass;
    var c := s.copies[id];
    SoundCopy(cfg, s, id);
    MoveFacts(cfg, s, id, a);
    MoveShape(cfg, s, id, a);
    RetryExactly(OptionsFor(cfg, c.t.packet), StageAt(|c.answers|), a, FlightOf(s, c));
    MovedIs(cfg, s, id, a);
    OthersErrored(cfg, s, id);
  }

  lemma MovedIs(cfg: Config, s: System, id: nat, a: Answer)
    requires Enabled(cfg, s, Move(id, a))
    ensures var c := s.copies[id];
      ApplyMove(cfg, s, id, a).copies[id].t
      == StageStep(OptionsFor(cfg, c.t.packet), StageAt(|c.answers|), a, FlightOf(s, c)).t
  {
    hide StageStep, StageAt, EmitsTwice;
  }

  /** In a sound state any other copy of the row is errored. */
  lemma OthersErrored(cfg: Config, s: System, id: nat)
    requires Sound(cfg, s) && id in s.copies
    ensures forall j :: j in s.copies && j != id && s.copies[j].t.Key() == s.copies[id].t.Key() ==>
              s.copies[j].t.errored
  {
    hide IsPass, InTime, RowsOk, PendingOk, WellFormed;
  }

  /** Over every disciplined run: once a retry stage has said yes to a live copy and cleared its tx, the row is the
      same and without that tx until it is brought in again, and so in every snapshot until then. */
  lemma RetryReachesSnapshots(cfg: Config, ss: seq<System>, steps: seq<Step>, m: nat, n: nat)
    requires DisciplinedRun(cfg, ss, steps) && m < n < |ss|
    requires steps[m].Move? && ClearsTx(ss[m], steps[m].id, steps[m].answer)
    requires forall i :: m < i < n ==> !BringsIn(cfg, ss[i], steps[i], ss[m].copies[steps[m].id].t.Key())
    ensures var c := ss[m].copies[steps[m].id];
      && Forgotten(ss[n], c.t.Key(), StageAt(|c.answers|))
      && (n < |steps| && steps[n].Snapshot? ==>
            forall e :: e in ss[n + 1].pending && e.row.Key() == c.t.Key() ==> e.row == ss[n].table[c.t.Key()])
  {
    hide StageAt, Sound, Disciplined, TxOf, AsksToRetry, Spent, BringsIn, ApplyPush, ApplyMove, Configured;
    var s, id, a := ss[m], steps[m].id, steps[m].answer;
    SoundRun(cfg, ss, steps, m);
    RetriedMove(cfg, s, id, a);
    SpentRun(cfg, ss, steps, m + 1, n, s.copies[id].t.Key());
    if n < |steps| && steps[n].Snapshot? {
      SoundRun(cfg, ss, steps, n);
      SnapshotRows(cfg, ss[n], steps[n].order);
    }
  }

  lemma SnapshotRows(cfg: Config, s: System, order: seq<RowKey>)
    requires Sound(cfg, s) && Enabled(cfg, s, Snapshot(order))
    ensures forall e :: e in Apply(cfg, s, Snapshot(order)).pending ==>
              e.row.Key() in s.table && s.table[e.row.Key()] == e.row
  {
    hide InFlight, IsPass, InTime, RowsOk, PendingOk, CopiesOk;
    var s' := Apply(cfg, s, Snapshot(order));
    forall i | 0 <= i < |s'.pending|
      ensures s'.pending[i].row.Key() in s.table && s.table[s'.pending[i].row.Key()] == s'.pending[i].row
    {
      assert order[i] in order;
    }
  }
}
