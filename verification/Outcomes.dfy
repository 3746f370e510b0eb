/** What a terminal status says of the transfer that has it. */
module Outcomes {
  import opened Transfers
  import opened Stages
  import opened Pass
  import opened Dispatch
  import opened Dedup
  import opened Runs
  import opened Lifecycle
  import opened StageTable

  predicate Complete(s: RelayStatus) { !Unfinished(s) && s != FAILED }

  /** The status says how the transfer ended: with a timeout; else with an ack; else with a write ack alone, of one
      kind or of the other two. */
  predicate SaysHow(c: Columns) {
    && (c.status == COMPLETE_WITH_TIMEOUT <==> c.timeout.hash.Some?)
    && (c.status == COMPLETE_WITH_ACK <==> c.timeout.hash.None? && c.ack.hash.Some?)
    && (c.status == COMPLETE_WITH_WRITE_ACK_SUCCESS <==>
          c.timeout.hash.None? && c.ack.hash.None? && c.writeAck.status == Some(SUCCESS))
    && (c.status == COMPLETE_WITH_WRITE_ACK_ERROR <==>
          && c.timeout.hash.None? && c.ack.hash.None?
          && (c.writeAck.status == Some(ERROR) || c.writeAck.status == Some(UNKNOWN)))
  }

  /** A write ack ends the transfer only if its ack is not to be relayed, and always with its recv. */
  predicate MayEnd(opts: Options, c: Columns) {
    && (c.status == COMPLETE_WITH_WRITE_ACK_SUCCESS ==> !opts.relaySuccessAcks)
    && (c.status == COMPLETE_WITH_WRITE_ACK_ERROR ==> !opts.relayErrorAcks)
    && (c.status != COMPLETE_WITH_TIMEOUT ==> c.recv.hash.Some? && c.writeAck.hash == c.recv.hash)
  }

  lemma DoneSaysHow(opts: Options, c: Columns)
    requires DoneAs(opts, c, c.status) && Coherent(c)
    ensures SaysHow(c) && MayEnd(opts, c)
  {
  }

  /** Being done is about the hashes and the status of the write ack. */
  lemma DoneAgrees(opts: Options, c: Columns, d: Columns, s: RelayStatus)
    requires Agrees(c, d)
    ensures DoneAs(opts, c, s) == DoneAs(opts, d, s)
  {
  }

  /** The finisher on a consistent flight: a row that it leaves complete says how. */
  lemma FinisherSaysHow(opts: Options, a: Answer, f: Flight)
    requires Consistent(f) && Unfinished(f.row.status)
    ensures var row := StageStep(opts, Finish, a, f).row;
      !Unfinished(row.status) ==> DoneAs(opts, row, row.status)
  {
    hide StageStep, Extends, Coherent, Agrees;
    FinishLine(opts, a, f, COMPLETE_WITH_TIMEOUT);
    FinishLine(opts, a, f, COMPLETE_WITH_ACK);
    FinishLine(opts, a, f, COMPLETE_WITH_WRITE_ACK_SUCCESS);
    FinishLine(opts, a, f, COMPLETE_WITH_WRITE_ACK_ERROR);
    if !f.t.errored {
      DoneAgrees(opts, f.t.cols, f.row, COMPLETE_WITH_TIMEOUT);
      DoneAgrees(opts, f.t.cols, f.row, COMPLETE_WITH_ACK);
      DoneAgrees(opts, f.t.cols, f.row, COMPLETE_WITH_WRITE_ACK_SUCCESS);
      DoneAgrees(opts, f.t.cols, f.row, COMPLETE_WITH_WRITE_ACK_ERROR);
    }
  }

  /** Every pass that leaves a row terminal, with or without an error, leaves it with the status that says how. */
  lemma PassSaysHow(opts: Options, answers: seq<Answer>, row: Row)
    requires |answers| == STAGES && Coherent(row.cols) && Unfinished(row.cols.status)
    ensures var end := Run(opts, answers, Begin(row), STAGES).row;
      !Unfinished(end.status) ==> SaysHow(end) && MayEnd(opts, end)
  {
    hide StageStep, Extends, Unfinished, SaysHow, MayEnd, DoneAs;
    var f := Begin(row);
    Order();
    AlwaysConsistent(opts, answers, f, 16);
    AlwaysConsistent(opts, answers, f, STAGES);
    UnfinishedUntilFinish(opts, answers, f, 16);
    FinisherSaysHow(opts, answers[16], Run(opts, answers, f, 16));
    var end := Run(opts, answers, f, STAGES).row;
    if !Unfinished(end.status) {
      DoneSaysHow(opts, end);
    }
  }

  /** Every complete row is of a configured pair of chains and is done as its status says. */
  predicate RowsSayHow(cfg: Config, table: map<RowKey, Row>) {
    forall k :: k in table && Complete(table[k].cols.status) ==>
      Configured(cfg, table[k].packet) && DoneAs(OptionsFor(cfg, table[k].packet), table[k].cols, table[k].cols.status)
  }

  lemma MoveSaysHow(cfg: Config, s: System, id: nat, a: Answer)
    requires Sound(cfg, s) && Enabled(cfg, s, Move(id, a)) && RowsSayHow(cfg, s.table)
    ensures RowsSayHow(cfg, ApplyMove(cfg, s, id, a).table)
  {
    hide StageStep, StageAt, Extends, Consistent, DoneAs, EmitsTwice, Complete, TableAfter, Sound, IsPass, WellFormed;
    SoundCopy(cfg, s, id);
    MoveFacts(cfg, s, id, a);
    NewStatus(cfg, s.table, s.copies[id], a);
  }

  lemma SoundCopy(cfg: Config, s: System, id: nat)
    requires Sound(cfg, s) && id in s.copies
    ensures WellFormed(s) && IsPass(cfg, s.table, s.copies[id])
    ensures OfTable(s.table, s.copies[id].t.packet)
  {
    hide Run, InTime, RowsOk, PendingOk;
  }

  /** The row of the copy that moves. */
  lemma NewStatus(cfg: Config, table: map<RowKey, Row>, c: Copy, a: Answer)
    requires IsPass(cfg, table, c) && |c.answers| < STAGES
    ensures var opts := OptionsFor(cfg, c.t.packet);
      var row := StageStep(opts, StageAt(|c.answers|), a, Flight(c.t, table[c.t.Key()].cols, c.trace)).row;
      Complete(row.status) ==> DoneAs(opts, row, row.status)
  {
    hide StageStep, Run, Consistent, DoneAs, Unfinished, Coherent;
    var opts, f := OptionsFor(cfg, c.t.packet), Flight(c.t, table[c.t.Key()].cols, c.trace);
    PassFacts(cfg, table, c);
    if |c.answers| == 16 {
      Order();
      FinisherSaysHow(opts, a, f);
    } else {
      var stage := StageAt(|c.answers|);
      assert !stage.Finish?;
      StatusStep(stage, f, StageStep(opts, stage, a, f));
    }
  }

  lemma SaysHowStep(cfg: Config, s: System, step: Step)
    requires Sound(cfg, s) && Enabled(cfg, s, step) && RowsSayHow(cfg, s.table)
    ensures RowsSayHow(cfg, Apply(cfg, s, step).table)
  {
    hide ApplyMove, ApplyPush, Sound, DoneAs, InFlight;
    match step
    case Move(id, a) => MoveSaysHow(cfg, s, id, a);
    case Push(saved) => PushSaysHow(cfg, s, saved);
    case _ =>
  }

  lemma PushSaysHow(cfg: Config, s: System, saved: bool)
    requires s.pending != [] && RowsSayHow(cfg, s.table)
    ensures RowsSayHow(cfg, ApplyPush(cfg, s, saved).table)
  {
    hide DoneAs, HasPipeline, Accepts, TransferKeyOf;
  }

  lemma {:induction false} SaysHowRun(cfg: Config, ss: seq<System>, steps: seq<Step>, n: nat)
    requires DisciplinedRun(cfg, ss, steps) && n < |ss|
    ensures RowsSayHow(cfg, ss[n].table)
  {
    hide Apply, Enabled, Disciplined, Sound, DoneAs;
    if n > 0 {
      SaysHowRun(cfg, ss, steps, n - 1);
      SoundRun(cfg, ss, steps, n - 1);
      SaysHowStep(cfg, ss[n - 1], steps[n - 1]);
    }
  }

  /** In every state of every disciplined run: the status of every complete row says how its transfer ended, and a
      write ack ended it only if its ack is not to be relayed. */
  lemma TerminalStatusSaysHow(cfg: Config, ss: seq<System>, steps: seq<Step>, n: nat, k: RowKey)
    requires DisciplinedRun(cfg, ss, steps) && n < |ss|
    requires k in ss[n].table && Complete(ss[n].table[k].cols.status)
    ensures SaysHow(ss[n].table[k].cols)
    ensures Configured(cfg, ss[n].table[k].packet)
            && MayEnd(OptionsFor(cfg, ss[n].table[k].packet), ss[n].table[k].cols)
  {
    hide DisciplinedRun, DoneAs, SaysHow, MayEnd, Coherent, Complete;
    SaysHowRun(cfg, ss, steps, n);
    MemoryAgreesWithTable(cfg, ss, steps, n);
    DoneSaysHow(OptionsFor(cfg, ss[n].table[k].packet), ss[n].table[k].cols);
  }
}
