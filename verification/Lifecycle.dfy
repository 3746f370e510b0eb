/** What holds of the table and of every copy over whole runs. */
module Lifecycle {
  import opened Transfers
  import opened Stages
  import opened Pass
  import opened Dispatch
  import opened Dedup
  import opened Runs

  /** In every state of every disciplined run, whatever storage calls failed on the way: every row is
      coherent, and every copy in flight without an error agrees with its row. */
  lemma MemoryAgreesWithTable(cfg: Config, ss: seq<System>, steps: seq<Step>, n: nat)
    requires DisciplinedRun(cfg, ss, steps) && n < |ss|
    ensures forall k :: k in ss[n].table ==> Coherent(ss[n].table[k].cols)
    ensures forall id :: id in ss[n].copies && !ss[n].copies[id].t.errored ==>
              && ss[n].copies[id].t.Key() in ss[n].table
              && Agrees(ss[n].copies[id].t.cols, ss[n].table[ss[n].copies[id].t.Key()].cols)
  {
    hide IsRun, Disciplined, Coherent, Agrees, Run;
    SoundRun(cfg, ss, steps, n);
    forall id | id in ss[n].copies && !ss[n].copies[id].t.errored
      ensures ss[n].copies[id].t.Key() in ss[n].table
      ensures Agrees(ss[n].copies[id].t.cols, ss[n].table[ss[n].copies[id].t.Key()].cols)
    {
      assert IsPass(cfg, ss[n].table, ss[n].copies[id]);
      PassFacts(cfg, ss[n].table, ss[n].copies[id]);
    }
  }

  /** A copy that has been through every stage without an error: its row is terminal exactly if a recv
      or a timeout was recorded, and otherwise the deadline is past; and if it was pushed past the
      deadline, its row is terminal exactly if it is not left with an ack alone, which the row it was
      loaded from and its first two answers decide. */
  lemma CompletedPass(cfg: Config, ss: seq<System>, steps: seq<Step>, n: nat, id: nat)
    requires DisciplinedRun(cfg, ss, steps) && n < |ss|
    requires id in ss[n].copies && |ss[n].copies[id].answers| == STAGES && !ss[n].copies[id].t.errored
    ensures var c := ss[n].copies[id];
      && c.t.Key() in ss[n].table
      && var row := ss[n].table[c.t.Key()].cols;
         && (Unfinished(row.status) <==> !c.t.HasRecv() && !c.t.HasTimeout())
         && (Unfinished(row.status) ==> c.t.packet.timeoutTimestamp < ss[n].clock)
         && (c.t.packet.timeoutTimestamp < c.pushed ==>
               && (Unfinished(row.status) <==> AckAlone(row))
               && (Unfinished(row.status) <==> EndsWithAckAlone(c.start, c.answers)))
  {
    hide IsRun, Disciplined, Coherent, Unfinished, Run;
    SoundRun(cfg, ss, steps, n);
    var c := ss[n].copies[id];
    var opts := OptionsFor(cfg, c.t.packet);
    assert IsPass(cfg, ss[n].table, c) && InTime(c, ss[n].clock);
    PassFacts(cfg, ss[n].table, c);
    PassOutcome(opts, c.answers, c.start);
    if c.t.packet.timeoutTimestamp < c.pushed {
      PassPastDeadline(opts, c.answers, c.start);
    }
  }

  /** A copy numbered from first on was pushed at time or later, unless it is a second copy of an errored one. */
  predicate PushedSince(s: System, first: nat, time: Time) {
    && first <= s.nextId && time <= s.clock
    && forall id :: id in s.copies && id >= first && !s.copies[id].t.errored ==> s.copies[id].pushed >= time
  }

  lemma PushedSinceMove(cfg: Config, s: System, id: nat, a: Answer, first: nat, time: Time)
    requires PushedSince(s, first, time) && Enabled(cfg, s, Move(id, a))
    ensures PushedSince(ApplyMove(cfg, s, id, a), first, time)
  {
    hide StageStep, StageAt, EmitsTwice, Admitted, Consistent, Extends;
    var c := s.copies[id];
    var opts, stage, f := OptionsFor(cfg, c.t.packet), StageAt(|c.answers|), FlightOf(s, c);
    MoveShape(cfg, s, id, a);
    assert f.t.errored ==> StageStep(opts, stage, a, f) == f;
    if EmitsTwice(cfg, s, id, a) {
      TwiceIsErroredAt(cfg, s, id, a);
    }
  }

  lemma TwiceIsErroredAt(cfg: Config, s: System, id: nat, a: Answer)
    requires Enabled(cfg, s, Move(id, a)) && EmitsTwice(cfg, s, id, a)
    ensures ApplyMove(cfg, s, id, a).copies[id].t.errored
  {
    hide StageStep, StageAt, Admitted, Consistent, Extends;
    var c := s.copies[id];
    TwiceIsErrored(OptionsFor(cfg, c.t.packet), StageAt(|c.answers|), a, FlightOf(s, c));
  }

  lemma PushedSinceStep(cfg: Config, s: System, step: Step, first: nat, time: Time)
    requires PushedSince(s, first, time) && Enabled(cfg, s, step)
    ensures PushedSince(Apply(cfg, s, step), first, time)
  {
    hide ApplyMove, ApplyPush, InFlight, TransferKeyOf;
    match step
    case Move(id, a) => PushedSinceMove(cfg, s, id, a, first, time);
    case Push(saved) => PushedSincePush(cfg, s, saved, first, time);
    case _ =>
  }

  lemma PushedSincePush(cfg: Config, s: System, saved: bool, first: nat, time: Time)
    requires PushedSince(s, first, time) && s.pending != []
    ensures PushedSince(ApplyPush(cfg, s, saved), first, time)
  {
    hide HasPipeline, Accepts, TransferKeyOf, MarkFailed;
  }

  lemma {:induction false} PushedSinceRun(cfg: Config, ss: seq<System>, steps: seq<Step>, m: nat, n: nat)
    requires DisciplinedRun(cfg, ss, steps) && m <= n < |ss|
    ensures PushedSince(ss[n], ss[m].nextId, ss[m].clock)
  {
    hide Apply, Enabled, Disciplined, Sound;
    if m < n {
      PushedSinceRun(cfg, ss, steps, m, n - 1);
      PushedSinceStep(cfg, ss[n - 1], steps[n - 1], ss[m].nextId, ss[m].clock);
    } else {
      SoundRun(cfg, ss, steps, m);
      KnownIds(cfg, ss[m]);
    }
  }

  lemma KnownIds(cfg: Config, s: System)
    requires Sound(cfg, s)
    ensures forall id :: id in s.copies ==> id < s.nextId
  {
    hide IsPass, InTime, RowsOk, PendingOk;
  }

  /** The copy has been through every stage without an error. */
  predicate Through(s: System, id: nat) {
    id in s.copies && |s.copies[id].answers| == STAGES && !s.copies[id].t.errored
  }

  /** Copy i is through and has left its row unfinished; later copy j of the row, pushed after that, is through. */
  predicate InTwoPasses(before: System, i: nat, after: System, j: nat) {
    && Through(before, i) && Through(after, j)
    && before.copies[i].t.Key() in before.table
    && Unfinished(before.table[before.copies[i].t.Key()].cols.status)
    && j >= before.nextId && after.copies[j].t.packet == before.copies[i].t.packet
  }

  /** At most two error-free passes: if a copy went through without an error and left its row unfinished, then
      any copy of that row pushed later that goes through without an error leaves the row terminal, exactly
      if it does not leave an ack alone; the row it was loaded from and its first two answers decide that. */
  lemma SecondPass(cfg: Config, ss: seq<System>, steps: seq<Step>, m: nat, i: nat, n: nat, j: nat)
    requires DisciplinedRun(cfg, ss, steps) && m <= n < |ss| && InTwoPasses(ss[m], i, ss[n], j)
    ensures var k := ss[n].copies[j].t.Key();
      && k in ss[n].table
      && (Unfinished(ss[n].table[k].cols.status) <==> AckAlone(ss[n].table[k].cols))
      && (Unfinished(ss[n].table[k].cols.status) <==> EndsWithAckAlone(ss[n].copies[j].start, ss[n].copies[j].answers))
  {
    hide DisciplinedRun, Unfinished, AckAlone, EndsWithAckAlone;
    CompletedPass(cfg, ss, steps, m, i);
    PushedSinceRun(cfg, ss, steps, m, n);
    CompletedPass(cfg, ss, steps, n, j);
  }

  /** A terminal row is left alone by every step. */
  lemma TerminalStep(cfg: Config, s: System, step: Step, k: RowKey)
    requires Sound(cfg, s) && Enabled(cfg, s, step) && Disciplined(cfg, s, step)
    requires k in s.table && !Unfinished(s.table[k].cols.status)
    ensures k in Apply(cfg, s, step).table && Apply(cfg, s, step).table[k] == s.table[k]
    ensures step.Push? && Accepts(cfg, s) ==> s.pending[0].row.Key() != k
    ensures step.Snapshot? ==> k !in step.order
  {
    hide ApplyMove, Unfinished, Run, Coherent, Sound, InTime;
    match step
    case Move(id, a) =>
      MoveFactsOf(cfg, s, id, a);
    case Push(saved) =>
      PushFactsOf(cfg, s);
    case _ =>
  }

  lemma MoveFactsOf(cfg: Config, s: System, id: nat, a: Answer)
    requires Sound(cfg, s) && Enabled(cfg, s, Move(id, a))
    ensures Unfinished(s.table[s.copies[id].t.Key()].cols.status)
    ensures var s', k := ApplyMove(cfg, s, id, a), s.copies[id].t.Key();
      k in s'.table && s'.table == s.table[k := s'.table[k]]
  {
    hide ApplyMove, StageStep, StageAt, Run, Coherent, PendingOk, RowsOk;
    MoveFacts(cfg, s, id, a);
    assert IsPass(cfg, s.table, s.copies[id]);
    PassFacts(cfg, s.table, s.copies[id]);
  }

  /** The entry a push takes is of an unfinished row, if it enters a pipeline or is marked FAILED. */
  lemma PushFactsOf(cfg: Config, s: System)
    requires Sound(cfg, s) && s.pending != []
    ensures var e := s.pending[0];
      && e.row.Key() in s.table
      && (e.idle ==> Unfinished(s.table[e.row.Key()].cols.status))
      && (!HasPipeline(cfg, s, e.row.packet) ==> e.idle)
  {
    hide IsPass, InTime, RowsOk, Unfinished, TableOk;
    assert OfTable(s.table, s.pending[0].row.packet);
  }

  /** Over every disciplined run a row that is COMPLETE or FAILED is never rewritten, never selected
      and never pushed again. */
  lemma {:induction false} TerminalForGood(cfg: Config, ss: seq<System>, steps: seq<Step>, m: nat, n: nat, k: RowKey)
    requires DisciplinedRun(cfg, ss, steps) && m <= n < |ss|
    requires k in ss[m].table && !Unfinished(ss[m].table[k].cols.status)
    ensures k in ss[n].table && ss[n].table[k] == ss[m].table[k]
    ensures n < |steps| && steps[n].Push? && Accepts(cfg, ss[n]) ==> ss[n].pending[0].row.Key() != k
    ensures n < |steps| && steps[n].Snapshot? ==> k !in steps[n].order
  {
    hide Apply, Sound, Disciplined, Unfinished, Accepts;
    if m < n {
      TerminalForGood(cfg, ss, steps, m, n - 1, k);
      SoundRun(cfg, ss, steps, n - 1);
      TerminalStep(cfg, ss[n - 1], steps[n - 1], k);
    }
    if n < |steps| {
      SoundRun(cfg, ss, steps, n);
      TerminalStep(cfg, ss[n], steps[n], k);
    }
  }

  /** A row's write ack columns other than the finalized time, and the recv hash they rest on. */
  predicate SameWriteAck(c: Columns, d: Columns) {
    d.writeAck.(finalizedTime := None) == c.writeAck.(finalizedTime := None) && d.recv.hash == c.recv.hash
  }

  lemma WriteAckStep(cfg: Config, s: System, step: Step, k: RowKey)
    requires Sound(cfg, s) && Enabled(cfg, s, step) && k in s.table && s.table[k].cols.writeAck.hash.Some?
    ensures k in Apply(cfg, s, step).table && SameWriteAck(s.table[k].cols, Apply(cfg, s, step).table[k].cols)
  {
    hide ApplyMove, Run, Coherent, Sound, InTime, StageStep, StageAt;
    match step
    case Move(id, a) =>
      if s.copies[id].t.Key() == k {
        WriteAckMove(cfg, s, id, a);
      }
      MoveFactsOf(cfg, s, id, a);
    case _ =>
  }

  lemma WriteAckMove(cfg: Config, s: System, id: nat, a: Answer)
    requires Sound(cfg, s) && Enabled(cfg, s, Move(id, a))
    requires s.table[s.copies[id].t.Key()].cols.writeAck.hash.Some?
    ensures var k := s.copies[id].t.Key();
      k in ApplyMove(cfg, s, id, a).table && SameWriteAck(s.table[k].cols, ApplyMove(cfg, s, id, a).table[k].cols)
  {
    hide ApplyMove, StageStep, StageAt, Run, Coherent, PendingOk, RowsOk;
    var c := s.copies[id];
    MoveFacts(cfg, s, id, a);
    assert IsPass(cfg, s.table, c);
    PassFacts(cfg, s.table, c);
    WriteAckStays(OptionsFor(cfg, c.t.packet), StageAt(|c.answers|), a, FlightOf(s, c));
  }

  /** Over every disciplined run a recorded write ack is never changed, and the equal recv hash it
      was found in is never changed or cleared. */
  lemma {:induction false} WriteAckForGood(cfg: Config, ss: seq<System>, steps: seq<Step>, m: nat, n: nat, k: RowKey)
    requires DisciplinedRun(cfg, ss, steps) && m <= n < |ss|
    requires k in ss[m].table && ss[m].table[k].cols.writeAck.hash.Some?
    ensures k in ss[n].table && SameWriteAck(ss[m].table[k].cols, ss[n].table[k].cols)
    ensures ss[n].table[k].cols.recv.hash == ss[m].table[k].cols.writeAck.hash
  {
    hide Apply, Sound, Disciplined;
    if m < n {
      WriteAckForGood(cfg, ss, steps, m, n - 1, k);
      SoundRun(cfg, ss, steps, n - 1);
      WriteAckStep(cfg, ss[n - 1], steps[n - 1], k);
    } else {
      MemoryAgreesWithTable(cfg, ss, steps, m);
    }
  }

  /** Any move that records an ack alone's retry. */
  predicate RetriesAck(s: System, step: Step, k: RowKey) {
    && step.Move? && step.id in s.copies && s.copies[step.id].t.Key() == k
    && |s.copies[step.id].answers| == RetryAck.Position() && step.answer.reply == Some(true)
  }

  predicate Stuck(s: System, k: RowKey) {
    && k in s.table && AckAlone(s.table[k].cols) && Unfinished(s.table[k].cols.status)
    && s.table[k].packet.timeoutTimestamp < s.clock
  }

  lemma StuckStep(cfg: Config, s: System, step: Step, k: RowKey)
    requires Sound(cfg, s) && Enabled(cfg, s, step) && Stuck(s, k) && Configured(cfg, s.table[k].packet)
    requires !RetriesAck(s, step, k)
    ensures Stuck(Apply(cfg, s, step), k) && Apply(cfg, s, step).table[k].packet == s.table[k].packet
  {
    hide ApplyMove, Run, Coherent, Sound, InTime, StageStep, StageAt, AckAlone, Unfinished;
    match step
    case Move(id, a) =>
      if s.copies[id].t.Key() == k {
        StuckMove(cfg, s, id, a);
      }
      MoveFactsOf(cfg, s, id, a);
      MoveShape(cfg, s, id, a);
    case Push(saved) =>
      PushedPacket(cfg, s);
    case _ =>
  }

  lemma PushedPacket(cfg: Config, s: System)
    requires Sound(cfg, s) && s.pending != []
    ensures var row := s.pending[0].row; row.Key() in s.table && s.table[row.Key()].packet == row.packet
  {
    hide CopiesOk, RowsOk, PendingOk;
    assert OfTable(s.table, s.pending[0].row.packet);
  }

  lemma StuckMove(cfg: Config, s: System, id: nat, a: Answer)
    requires Sound(cfg, s) && Enabled(cfg, s, Move(id, a)) && Stuck(s, s.copies[id].t.Key())
    requires |s.copies[id].answers| == RetryAck.Position() ==> a.reply != Some(true)
    ensures var k := s.copies[id].t.Key();
      && k in ApplyMove(cfg, s, id, a).table
      && AckAlone(ApplyMove(cfg, s, id, a).table[k].cols) && Unfinished(ApplyMove(cfg, s, id, a).table[k].cols.status)
      && ApplyMove(cfg, s, id, a).table[k].packet == s.table[k].packet
  {
    hide ApplyMove, StageStep, StageAt, Run, Coherent, PendingOk, RowsOk, AckAlone, Unfinished, Consistent;
    var c := s.copies[id];
    MoveFacts(cfg, s, id, a);
    assert IsPass(cfg, s.table, c);
    PassFacts(cfg, s.table, c);
    AckAloneRowStep(OptionsFor(cfg, c.t.packet), StageAt(|c.answers|), a, FlightOf(s, c));
  }

  /** A row left past its deadline with an ack and no recv never completes: no disciplined run takes
      it anywhere, until the ack tx itself is found to have failed. */
  lemma {:induction false} AckAloneForGood(cfg: Config, ss: seq<System>, steps: seq<Step>, m: nat, n: nat, k: RowKey)
    requires DisciplinedRun(cfg, ss, steps) && m <= n < |ss|
    requires Stuck(ss[m], k) && Configured(cfg, ss[m].table[k].packet)
    requires forall i :: m <= i < n ==> !RetriesAck(ss[i], steps[i], k)
    ensures Stuck(ss[n], k) && ss[n].table[k].packet == ss[m].table[k].packet
  {
    hide Apply, Sound, Disciplined, Stuck, RetriesAck;
    if m < n {
      AckAloneForGood(cfg, ss, steps, m, n - 1, k);
      SoundRun(cfg, ss, steps, n - 1);
      StuckStep(cfg, ss[n - 1], steps[n - 1], k);
    }
  }
}
