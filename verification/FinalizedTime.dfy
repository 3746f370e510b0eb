/** What becomes of the finalized time of a write ack, whose update carries no key. */
module FinalizedTime {
  import opened Transfers
  import opened Stages
  import opened Pass
  import opened Dispatch
  import opened Dedup
  import opened Gates

  /** The gate was passed and its update reported success. */
  predicate PassedGate(trace: seq<Event>, answers: seq<Answer>) {
    var gate := CheckWriteAckFinality.Position();
    |answers| > gate && answers[gate].saved && Asked(CheckWriteAckFinality, true) in trace
  }

  /** No stage writes the time to a row whose key is not the empty one. */
  lemma RowTime(opts: Options, stage: Stage, a: Answer, f: Flight)
    requires f.t.Key() != EMPTY_KEY
    ensures StageStep(opts, stage, a, f).row.writeAck.finalizedTime == f.row.writeAck.finalizedTime
  {
    hide Extends, Consistent, Guard;
    match stage
    case CheckWriteAckFinality => GateTime(opts, a, f);
    case _ =>
  }

  /** The gate writes it to memory exactly if it was asked, said yes, and the update reported success. */
  lemma GateTime(opts: Options, a: Answer, f: Flight)
    ensures var g := StageStep(opts, CheckWriteAckFinality, a, f);
      && (f.t.Key() != EMPTY_KEY ==> g.row.writeAck.finalizedTime == f.row.writeAck.finalizedTime)
      && (f.t.cols.writeAck.finalizedTime.None? ==>
            (g.t.cols.writeAck.finalizedTime.Some? <==>
               g.trace == f.trace + [Asked(CheckWriteAckFinality, true)] && a.saved))
  {
    hide Extends, Consistent, Guard;
    var g := StageStep(opts, CheckWriteAckFinality, a, f);
    assert f.trace + [Asked(CheckWriteAckFinality, true)] != f.trace;
    if g.trace == f.trace + [Asked(CheckWriteAckFinality, false)] {
      assert g.trace[|f.trace|] == Asked(CheckWriteAckFinality, false);
    }
  }

  /** Any other stage leaves the time in memory alone. */
  lemma MemoryTimeStays(opts: Options, stage: Stage, a: Answer, f: Flight)
    requires !stage.CheckWriteAckFinality?
    ensures StageStep(opts, stage, a, f).t.cols.writeAck.finalizedTime == f.t.cols.writeAck.finalizedTime
  {
    hide Extends, Consistent, Guard;
  }

  lemma NewEvent(stage: Stage, f: Flight, g: Flight, e: Event)
    requires Extends(stage, f, g) && e.stage == stage
    ensures forall x: Event :: x.stage != stage ==> (x in g.trace <==> x in f.trace)
    ensures e !in f.trace ==> (e in g.trace <==> g.trace == f.trace + [e])
  {
  }

  lemma StageOfGate(k: nat)
    requires k < STAGES
    ensures StageAt(k).CheckWriteAckFinality? <==> k == CheckWriteAckFinality.Position()
  {
  }

  /** Over a pass from a row without the time, memory has it exactly once the gate has been passed. */
  lemma {:induction false} PassTime(opts: Options, answers: seq<Answer>, f: Flight, n: nat)
    requires n <= |answers| <= STAGES && f.trace == [] && f.t.cols.writeAck.finalizedTime.None?
    ensures var g := Run(opts, answers, f, n);
      && (g.t.cols.writeAck.finalizedTime.Some? <==> PassedGate(g.trace, answers[..n]))
      && (n <= CheckWriteAckFinality.Position() ==> Asked(CheckWriteAckFinality, true) !in g.trace)
  {
    hide StageStep, StageAt, Consistent, Extends;
    if n != 0 {
      PassTime(opts, answers, f, n - 1);
      var prev, stage := Run(opts, answers, f, n - 1), StageAt(n - 1);
      StageOfGate(n - 1);
      NewEvent(stage, prev, Run(opts, answers, f, n), Asked(stage, true));
      if n - 1 == CheckWriteAckFinality.Position() {
        GateTime(opts, answers[n - 1], prev);
      } else {
        MemoryTimeStays(opts, stage, answers[n - 1], prev);
      }
    }
  }

  predicate NoTime(c: Columns) { c.writeAck.finalizedTime.None? }

  /** Neither the table nor anything read from it has the time. */
  predicate NoTimes(s: System) {
    && (forall k :: k in s.table ==> NoTime(s.table[k].cols))
    && (forall i :: 0 <= i < |s.pending| ==> NoTime(s.pending[i].row.cols))
    && (forall id :: id in s.copies ==> NoTime(s.copies[id].start.cols))
  }

  lemma NoTimesMove(cfg: Config, s: System, id: nat, a: Answer)
    requires WellFormed(s) && NoTimes(s) && Enabled(cfg, s, Move(id, a))
    ensures NoTimes(ApplyMove(cfg, s, id, a))
  {
    hide StageStep, StageAt, Consistent, Extends, EmitsTwice, NoTime, WellFormed;
    var c := s.copies[id];
    MoveFacts(cfg, s, id, a);
    KeyedRow(s, c);
    RowTime(OptionsFor(cfg, c.t.packet), StageAt(|c.answers|), a, FlightOf(s, c));
    SameTime(s.table[c.t.Key()].cols, ApplyMove(cfg, s, id, a).table[c.t.Key()].cols);
  }

  lemma KeyedRow(s: System, c: Copy)
    requires WellFormed(s) && c.t.Key() in s.table
    ensures c.t.Key() != EMPTY_KEY
  {
  }

  lemma SameTime(c: Columns, d: Columns)
    requires c.writeAck.finalizedTime == d.writeAck.finalizedTime
    ensures NoTime(c) <==> NoTime(d)
  {
  }

  lemma NoTimesPush(cfg: Config, s: System, saved: bool)
    requires NoTimes(s) && s.pending != []
    ensures NoTimes(ApplyPush(cfg, s, saved))
  {
    hide HasPipeline, Accepts, TransferKeyOf, MarkFailed, NoTime;
    if s.pending[0].row.Key() in s.table {
      MarkedTime(s.table, s.pending[0].row.Key());
    }
  }

  lemma MarkedTime(table: map<RowKey, Row>, k: RowKey)
    requires k in table
    ensures MarkFailed(table, k).Keys == table.Keys
    ensures forall j :: j in table ==> NoTime(MarkFailed(table, k)[j].cols) == NoTime(table[j].cols)
  {
  }

  lemma NoTimesStep(cfg: Config, s: System, step: Step)
    requires WellFormed(s) && NoTimes(s) && Enabled(cfg, s, step)
    ensures NoTimes(Apply(cfg, s, step))
  {
    hide ApplyMove, ApplyPush, WellFormed, InFlight;
    match step
    case Move(id, a) => NoTimesMove(cfg, s, id, a);
    case Push(saved) => NoTimesPush(cfg, s, saved);
    case Snapshot(order) =>
      var s' := Apply(cfg, s, step);
      forall i | 0 <= i < |s'.pending| ensures NoTime(s'.pending[i].row.cols) {
        assert order[i] in order;
      }
    case _ =>
  }

  lemma {:induction false} NoTimesRun(cfg: Config, ss: seq<System>, steps: seq<Step>, n: nat)
    requires IsRun(cfg, ss, steps) && n < |ss|
    ensures NoTimes(ss[n])
  {
    hide Apply, Enabled, Remembers;
    if n > 0 {
      NoTimesRun(cfg, ss, steps, n - 1);
      RemembersRun(cfg, ss, steps, n - 1);
      WellFormedOf(cfg, ss[n - 1]);
      NoTimesStep(cfg, ss[n - 1], steps[n - 1]);
    }
  }

  /** In every state of every run, disciplined or not: no row has the finalized time of its write ack. A copy
      has it in memory, and so disagrees with its row, exactly if it has passed the gate in this pass; so
      every pass that passes the gate writes the time anew. */
  lemma FinalizedTimeIsNeverStored(cfg: Config, ss: seq<System>, steps: seq<Step>, n: nat)
    requires IsRun(cfg, ss, steps) && n < |ss|
    ensures forall k :: k in ss[n].table ==> ss[n].table[k].cols.writeAck.finalizedTime.None?
    ensures forall id :: id in ss[n].copies ==>
              var c := ss[n].copies[id];
              && c.t.Key() in ss[n].table
              && (c.t.cols.writeAck.finalizedTime == ss[n].table[c.t.Key()].cols.writeAck.finalizedTime <==>
                    !PassedGate(c.trace, c.answers))
              && (|c.answers| <= CheckWriteAckFinality.Position() ==> c.t.cols.writeAck.finalizedTime.None?)
  {
    hide Apply, Enabled, RemembersPass;
    NoTimesRun(cfg, ss, steps, n);
    RemembersRun(cfg, ss, steps, n);
    forall id | id in ss[n].copies
      ensures ss[n].copies[id].t.Key() in ss[n].table
      ensures ss[n].copies[id].t.cols.writeAck.finalizedTime.Some?
              <==> PassedGate(ss[n].copies[id].trace, ss[n].copies[id].answers)
    {
      CopyTime(cfg, ss[n].copies[id]);
    }
  }

  lemma CopyTime(cfg: Config, c: Copy)
    requires RemembersPass(cfg, c) && NoTime(c.start.cols)
    ensures c.t.cols.writeAck.finalizedTime.Some? <==> PassedGate(c.trace, c.answers)
  {
    hide StageStep, Run, Consistent, Extends;
    PassTime(OptionsFor(cfg, c.t.packet), c.answers, Begin(c.start), |c.answers|);
    assert c.answers[..|c.answers|] == c.answers;
  }
}
