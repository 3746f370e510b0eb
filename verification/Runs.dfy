/** Whole runs, under the discipline that a copy is only pushed from a snapshot taken while its row
    was in no pipeline. Under it every copy in flight is at every moment a pass over its own row. */
module Runs {
  import opened Transfers
  import opened Stages
  import opened Pass
  import opened Dispatch
  import opened Dedup

  /** A push that enters a pipeline carries a row that was out of every pipeline at the snapshot.
      The dispatcher does not see to this by itself. */
  predicate Disciplined(cfg: Config, s: System, step: Step)
    requires Enabled(cfg, s, step)
  {
    step.Push? && Accepts(cfg, s) ==> s.pending[0].idle
  }

  /** The copy and its row are together where a pass over the row it was loaded from has got to. */
  predicate IsPass(cfg: Config, table: map<RowKey, Row>, c: Copy) {
    && OfTable(table, c.t.packet) && Configured(cfg, c.t.packet)
    && c.start.packet == c.t.packet && Coherent(c.start.cols) && Unfinished(c.start.cols.status)
    && |c.answers| <= STAGES
    && Run(OptionsFor(cfg, c.t.packet), c.answers, Begin(c.start), |c.answers|)
       == Flight(c.t, table[c.t.Key()].cols, c.trace)
  }

  predicate InTime(c: Copy, clock: Time) {
    && c.pushed <= clock
    && forall i :: 0 <= i < |c.answers| ==> c.pushed <= c.answers[i].now <= c.answers[i].later <= clock
  }

  predicate RowsOk(cfg: Config, table: map<RowKey, Row>) {
    forall k :: k in table ==>
      Coherent(table[k].cols) && (table[k].cols.status == FAILED ==> !Configured(cfg, table[k].packet))
  }

  predicate CopiesOk(cfg: Config, s: System) {
    && (forall id :: id in s.copies ==> IsPass(cfg, s.table, s.copies[id]))
    && (forall id :: id in s.copies ==> InTime(s.copies[id], s.clock))
    && (forall i, j :: i in s.copies && j in s.copies && i != j && s.copies[i].t.Key() == s.copies[j].t.Key() ==>
          s.copies[i].t.errored && s.copies[j].t.errored)
  }

  predicate DedupersOk(cfg: Config, dedupers: map<PipelineKey, Deduper>) {
    forall p :: p in dedupers ==> (p.sourceChainID, p.destinationChainID) in cfg
  }

  /** An idle entry is still what the table holds, and still out of every pipeline. */
  predicate PendingOk(cfg: Config, s: System) {
    && (forall i, j :: 0 <= i < j < |s.pending| ==> s.pending[i].row.Key() != s.pending[j].row.Key())
    && (forall i :: 0 <= i < |s.pending| && s.pending[i].idle ==>
          s.pending[i].row.Key() in s.table && s.table[s.pending[i].row.Key()] == s.pending[i].row)
    && (forall i :: 0 <= i < |s.pending| && s.pending[i].idle ==> Unfinished(s.pending[i].row.cols.status))
    && (forall i, id :: 0 <= i < |s.pending| && s.pending[i].idle && id in s.copies ==>
          s.copies[id].t.Key() != s.pending[i].row.Key())
    && (forall i :: 0 <= i < |s.pending| && !s.pending[i].idle ==> Configured(cfg, s.pending[i].row.packet))
  }

  predicate Sound(cfg: Config, s: System) {
    WellFormed(s) && RowsOk(cfg, s.table) && CopiesOk(cfg, s) && DedupersOk(cfg, s.dedupers) && PendingOk(cfg, s)
  }

  /** The step of a pass that a move makes. */
  lemma MovedIsPass(cfg: Config, s: System, id: nat, a: Answer)
    requires WellFormed(s) && Enabled(cfg, s, Move(id, a)) && IsPass(cfg, s.table, s.copies[id])
    ensures IsPass(cfg, ApplyMove(cfg, s, id, a).table, ApplyMove(cfg, s, id, a).copies[id])
  {
    hide StageStep, StageAt, Consistent, Extends, Unfinished, Coherent;
    MoveFacts(cfg, s, id, a);
    var c := s.copies[id];
    RunPrefix(OptionsFor(cfg, c.t.packet), c.answers, a, Begin(c.start), |c.answers|);
  }

  /** Every copy and its row are consistent, and the row is unfinished until the finisher ran. */
  lemma PassFacts(cfg: Config, table: map<RowKey, Row>, c: Copy)
    requires IsPass(cfg, table, c)
    ensures Consistent(Flight(c.t, table[c.t.Key()].cols, c.trace))
    ensures |c.answers| < STAGES ==> Unfinished(table[c.t.Key()].cols.status)
    ensures table[c.t.Key()].cols.status != FAILED
  {
    hide StageStep, StageAt, Extends, Run;
    var opts, f := OptionsFor(cfg, c.t.packet), Begin(c.start);
    AlwaysConsistent(opts, c.answers, f, |c.answers|);
    if |c.answers| < STAGES {
      UnfinishedUntilFinish(opts, c.answers, f, |c.answers|);
    } else {
      NeverFailed(opts, c.answers, f);
    }
  }

  lemma NeverFailed(opts: Options, answers: seq<Answer>, f: Flight)
    requires |answers| == STAGES && Unfinished(f.row.status) && Unfinished(f.t.cols.status)
    ensures Run(opts, answers, f, STAGES).row.status != FAILED
  {
    hide StageAt, Consistent, Extends, Effect, Deliver, Guard;
    assert StageAt(16) == Finish;
    UnfinishedUntilFinish(opts, answers, f, 16);
  }

  /** A transfer that is emitted twice is errored, so neither of the two does anything more. */
  lemma TwiceIsErrored(opts: Options, stage: Stage, a: Answer, f: Flight)
    requires stage.Batched() && Admitted(opts, stage, a, f.t) && !a.statusSaved
    ensures StageStep(opts, stage, a, f).t.errored
  {
    hide Consistent, Extends;
  }

  lemma MoveShape(cfg: Config, s: System, id: nat, a: Answer)
    requires Enabled(cfg, s, Move(id, a))
    ensures var s', c := ApplyMove(cfg, s, id, a), s.copies[id];
      && id in s'.copies
      && s'.copies == (if EmitsTwice(cfg, s, id, a) then s.copies[id := s'.copies[id]][s.nextId := s'.copies[id]]
                       else s.copies[id := s'.copies[id]])
      && s'.copies[id].pushed == c.pushed && s'.copies[id].answers == c.answers + [a]
      && s'.clock == a.later && s'.pending == s.pending && s'.dedupers == s.dedupers
  {
    hide StageStep, StageAt, EmitsTwice;
  }

  /** After a move every copy is still a pass over its row: the moved one because the stage is the
      next of its pass, one of another row because that row is untouched, and a duplicate because
      duplicates are errored and an errored transfer writes nothing. */
  lemma MoveCopies(cfg: Config, s: System, id: nat, a: Answer)
    requires WellFormed(s) && CopiesOk(cfg, s) && Enabled(cfg, s, Move(id, a))
    ensures CopiesOk(cfg, ApplyMove(cfg, s, id, a))
  {
    hide ApplyMove, WellFormed, IsPass, InTime, EmitsTwice, StageStep, StageAt;
    var s', c := ApplyMove(cfg, s, id, a), s.copies[id];
    MoveShape(cfg, s, id, a);
    MovedKey(cfg, s, id, a);
    MovedIsPass(cfg, s, id, a);
    EmittedTwice(cfg, s, id, a);
    if c.t.errored { ErroredMove(cfg, s, id, a); }
    forall j | j in s'.copies ensures IsPass(cfg, s'.table, s'.copies[j]) && InTime(s'.copies[j], s'.clock) {
      if j in s.copies && j != id && s'.copies[j] == s.copies[j] {
        OtherStaysPass(cfg, s, id, a, j);
      }
      StillInTime(c, s'.copies[id], a, s.clock);
    }
  }

  lemma MovedKey(cfg: Config, s: System, id: nat, a: Answer)
    requires WellFormed(s) && Enabled(cfg, s, Move(id, a))
    ensures ApplyMove(cfg, s, id, a).copies[id].t.Key() == s.copies[id].t.Key() && s.nextId !in s.copies
  {
    hide ApplyMove, StageStep, StageAt;
    MoveFacts(cfg, s, id, a);
  }

  lemma StillInTime(c: Copy, m: Copy, a: Answer, clock: Time)
    requires InTime(c, clock) && clock <= a.now <= a.later
    requires m.pushed == c.pushed && m.answers == c.answers + [a]
    ensures InTime(m, a.later)
  {
  }

  lemma OtherStaysPass(cfg: Config, s: System, id: nat, a: Answer, j: nat)
    requires WellFormed(s) && CopiesOk(cfg, s) && Enabled(cfg, s, Move(id, a)) && j in s.copies && j != id
    ensures IsPass(cfg, ApplyMove(cfg, s, id, a).table, s.copies[j]) && InTime(s.copies[j], a.later)
  {
    hide ApplyMove, StageStep, StageAt, Run, Coherent, Unfinished;
    MoveFacts(cfg, s, id, a);
    if s.copies[j].t.Key() == s.copies[id].t.Key() {
      ErroredMove(cfg, s, id, a);
    }
    assert IsPass(cfg, s.table, s.copies[j]);
  }

  lemma EmittedTwice(cfg: Config, s: System, id: nat, a: Answer)
    requires WellFormed(s) && Enabled(cfg, s, Move(id, a))
    ensures EmitsTwice(cfg, s, id, a) ==> ApplyMove(cfg, s, id, a).copies[id].t.errored
  {
    hide StageStep, StageAt, Consistent, Extends, Admitted;
    var c := s.copies[id];
    if EmitsTwice(cfg, s, id, a) {
      TwiceIsErrored(OptionsFor(cfg, c.t.packet), StageAt(|c.answers|), a, FlightOf(s, c));
    }
  }

  lemma ErroredMove(cfg: Config, s: System, id: nat, a: Answer)
    requires WellFormed(s) && Enabled(cfg, s, Move(id, a)) && s.copies[id].t.errored
    ensures ApplyMove(cfg, s, id, a).table == s.table && ApplyMove(cfg, s, id, a).copies[id].t.errored
  {
    hide StageStep, StageAt, Consistent, Extends;
    MoveFacts(cfg, s, id, a);
  }

  lemma SoundMove(cfg: Config, s: System, id: nat, a: Answer)
    requires Sound(cfg, s) && Enabled(cfg, s, Move(id, a))
    ensures Sound(cfg, ApplyMove(cfg, s, id, a))
  {
    hide ApplyMove, WellFormed, CopiesOk, Coherent, Unfinished;
    var s', c := ApplyMove(cfg, s, id, a), s.copies[id];
    WellFormedMove(cfg, s, id, a);
    MoveCopies(cfg, s, id, a);
    MoveRows(cfg, s, id, a);
    MovePending(cfg, s, id, a);
    MoveShape(cfg, s, id, a);
  }

  lemma MoveRows(cfg: Config, s: System, id: nat, a: Answer)
    requires Sound(cfg, s) && Enabled(cfg, s, Move(id, a))
    ensures RowsOk(cfg, ApplyMove(cfg, s, id, a).table)
  {
    hide ApplyMove, StageStep, StageAt, Run, Unfinished, Coherent, PendingOk;
    var s' := ApplyMove(cfg, s, id, a);
    MoveFacts(cfg, s, id, a);
    MoveCopies(cfg, s, id, a);
    MoveShape(cfg, s, id, a);
    assert IsPass(cfg, s'.table, s'.copies[id]);
    PassFacts(cfg, s'.table, s'.copies[id]);
  }

  lemma MovePending(cfg: Config, s: System, id: nat, a: Answer)
    requires Sound(cfg, s) && Enabled(cfg, s, Move(id, a))
    ensures PendingOk(cfg, ApplyMove(cfg, s, id, a))
  {
    hide ApplyMove, StageStep, StageAt, Run, Unfinished, Coherent, CopiesOk, RowsOk, EmitsTwice;
    var s' := ApplyMove(cfg, s, id, a);
    MoveFacts(cfg, s, id, a);
    MoveShape(cfg, s, id, a);
    MovedKey(cfg, s, id, a);
  }

  lemma SoundSnapshot(cfg: Config, s: System, order: seq<RowKey>)
    requires Sound(cfg, s) && Enabled(cfg, s, Snapshot(order))
    ensures PendingOk(cfg, Apply(cfg, s, Snapshot(order)))
  {
    hide Coherent, Unfinished, Run;
    var s' := Apply(cfg, s, Snapshot(order));
    forall i | 0 <= i < |s'.pending|
      ensures s'.pending[i].row.Key() == order[i] && order[i] in s.table && s'.pending[i].row == s.table[order[i]]
      ensures Unfinished(s'.pending[i].row.cols.status)
      ensures !s'.pending[i].idle ==> Configured(cfg, s'.pending[i].row.packet)
    {
      assert order[i] in order;
      if !s'.pending[i].idle {
        var id :| id in s.copies && s.copies[id].t.Key() == order[i];
        assert IsPass(cfg, s.table, s.copies[id]);
      }
    }
  }

  /** A pass stays a pass while its own row stays. */
  lemma PassUnder(cfg: Config, table: map<RowKey, Row>, table': map<RowKey, Row>, c: Copy)
    requires IsPass(cfg, table, c) && c.t.Key() in table' && table'[c.t.Key()] == table[c.t.Key()]
    ensures IsPass(cfg, table', c)
  {
    hide Run, Coherent, Unfinished;
  }

  lemma EnteredIsPass(cfg: Config, s: System, row: Row)
    requires Sound(cfg, s) && PipelineOf(row.packet) in s.dedupers
    requires row.Key() in s.table && s.table[row.Key()] == row && Unfinished(row.cols.status)
    ensures IsPass(cfg, s.table, Copy(row, s.clock, [], Load(row), []))
    ensures InTime(Copy(row, s.clock, [], Load(row), []), s.clock)
  {
    hide Coherent, Unfinished, CopiesOk, PendingOk, WellFormed;
  }

  lemma SoundEnter(cfg: Config, s: System, row: Row)
    requires Sound(cfg, s) && PipelineOf(row.packet) in s.dedupers
    requires row.Key() in s.table && s.table[row.Key()] == row && Unfinished(row.cols.status)
    requires forall id :: id in s.copies ==> s.copies[id].t.Key() != row.Key()
    requires forall i :: 0 <= i < |s.pending| ==> s.pending[i].row.Key() != row.Key()
    ensures Sound(cfg, Enter(s, row))
  {
    hide IsPass, InTime, RowsOk, CopiesOk, PendingOk, Unfinished, TransferKeyOf, WellFormed;
    EnterCopies(cfg, s, row);
    EnterPending(cfg, s, row);
    WellFormedOfTable(s, row);
    WellFormedEnter(s, row);
    assert WithPipeline(s, row.packet) == s;
  }

  lemma WellFormedOfTable(s: System, row: Row)
    requires WellFormed(s) && row.Key() in s.table && s.table[row.Key()] == row
    ensures OfTable(s.table, row.packet)
  {
  }

  lemma EnterCopies(cfg: Config, s: System, row: Row)
    requires Sound(cfg, s) && PipelineOf(row.packet) in s.dedupers
    requires row.Key() in s.table && s.table[row.Key()] == row && Unfinished(row.cols.status)
    requires forall id :: id in s.copies ==> s.copies[id].t.Key() != row.Key()
    ensures CopiesOk(cfg, Enter(s, row))
  {
    hide IsPass, InTime, RowsOk, PendingOk, Unfinished, TransferKeyOf, WellFormed;
    EnteredIsPass(cfg, s, row);
  }

  lemma EnterPending(cfg: Config, s: System, row: Row)
    requires PendingOk(cfg, s) && PipelineOf(row.packet) in s.dedupers
    requires forall i :: 0 <= i < |s.pending| ==> s.pending[i].row.Key() != row.Key()
    ensures PendingOk(cfg, Enter(s, row))
  {
    hide Unfinished, TransferKeyOf;
  }

  lemma SoundPush(cfg: Config, s: System, saved: bool)
    requires Sound(cfg, s) && s.pending != [] && Disciplined(cfg, s, Push(saved))
    ensures Sound(cfg, ApplyPush(cfg, s, saved))
  {
    hide Sound, MarkFailed, Enter, WithPipeline, OfTable, Unfinished;
    var e, row := s.pending[0], s.pending[0].row;
    var rest := s.(pending := s.pending[1..]);
    SoundRest(cfg, s);
    if !HasPipeline(cfg, s, row.packet) {
      SoundFailed(cfg, rest, row);
    } else {
      SoundPiped(cfg, rest, row.packet);
      if Accepts(cfg, s) {
        SoundEnter(cfg, WithPipeline(rest, row.packet), row);
      }
    }
  }

  /** What is known of the first entry, and that the rest is sound without it. */
  lemma SoundRest(cfg: Config, s: System)
    requires Sound(cfg, s) && s.pending != []
    ensures var row := s.pending[0].row;
      && Sound(cfg, s.(pending := s.pending[1..]))
      && OfTable(s.table, row.packet) && row.Key() in s.table
      && (forall i :: 0 <= i < |s.pending[1..]| ==> s.pending[1..][i].row.Key() != row.Key())
      && (s.pending[0].idle ==>
            && s.table[row.Key()] == row && Unfinished(row.cols.status)
            && forall id :: id in s.copies ==> s.copies[id].t.Key() != row.Key())
  {
    hide IsPass, InTime, RowsOk, Unfinished, TableOk;
  }

  lemma SoundPiped(cfg: Config, s: System, p: Packet)
    requires Sound(cfg, s) && HasPipeline(cfg, s, p)
    ensures Sound(cfg, WithPipeline(s, p))
    ensures WithPipeline(s, p) == s.(dedupers := WithPipeline(s, p).dedupers)
            && PipelineOf(p) in WithPipeline(s, p).dedupers
  {
    hide IsPass, InTime, RowsOk, Unfinished, TableOk, OfTable;
  }

  lemma FailedRows(cfg: Config, table: map<RowKey, Row>, row: Row)
    requires RowsOk(cfg, table) && OfTable(table, row.packet) && !Configured(cfg, row.packet)
    ensures RowsOk(cfg, MarkFailed(table, row.Key()))
  {
  }

  lemma OfConfigured(cfg: Config, table: map<RowKey, Row>, c: Copy)
    requires IsPass(cfg, table, c)
    ensures OfTable(table, c.t.packet) && Configured(cfg, c.t.packet)
  {
  }

  /** Marking a row without a pipeline as FAILED touches no copy and no entry. */
  lemma SoundFailed(cfg: Config, s: System, row: Row)
    requires Sound(cfg, s) && OfTable(s.table, row.packet) && !Configured(cfg, row.packet)
    requires forall i :: 0 <= i < |s.pending| ==> s.pending[i].row.Key() != row.Key()
    ensures Sound(cfg, s.(table := MarkFailed(s.table, row.Key())))
  {
    hide Unfinished, IsPass, InTime, WellFormed, RowsOk;
    WellFormedFailed(s, row.Key());
    FailedRows(cfg, s.table, row);
    forall id | id in s.copies
      ensures s.copies[id].t.Key() != row.Key() && IsPass(cfg, MarkFailed(s.table, row.Key()), s.copies[id])
    {
      OfConfigured(cfg, s.table, s.copies[id]);
      PassUnder(cfg, s.table, MarkFailed(s.table, row.Key()), s.copies[id]);
    }
  }

  lemma SoundStep(cfg: Config, s: System, step: Step)
    requires Sound(cfg, s) && Enabled(cfg, s, step) && Disciplined(cfg, s, step)
    ensures Sound(cfg, Apply(cfg, s, step))
  {
    hide ApplyMove, ApplyPush, WellFormed, IsPass, Unfinished, RowsOk;
    WellFormedStep(cfg, s, step);
    match step
    case Insert(row) => SoundInsert(cfg, s, row);
    case Snapshot(order) => SoundSnapshot(cfg, s, order);
    case Push(saved) => SoundPush(cfg, s, saved);
    case Move(id, a) => SoundMove(cfg, s, id, a);
    case Poll(id) => SoundPoll(cfg, s, id);
    case Delete(p) =>
    case Tick(now) =>
    case Restart =>
  }

  lemma SoundPoll(cfg: Config, s: System, id: nat)
    requires Sound(cfg, s) && Enabled(cfg, s, Poll(id))
    ensures Sound(cfg, Apply(cfg, s, Poll(id)))
  {
    hide IsPass, InTime, Unfinished, WellFormed, RowsOk, TransferKeyOf;
    WellFormedStep(cfg, s, Poll(id));
  }

  lemma SoundInsert(cfg: Config, s: System, row: Row)
    requires Sound(cfg, s) && Enabled(cfg, s, Insert(row))
    ensures Sound(cfg, Apply(cfg, s, Insert(row)))
  {
    hide IsPass, InTime, Unfinished, WellFormed, RowsOk;
    var s' := Apply(cfg, s, Insert(row));
    WellFormedStep(cfg, s, Insert(row));
    InsertedRows(cfg, s.table, row);
    forall id | id in s.copies ensures IsPass(cfg, s'.table, s.copies[id]) {
      OfConfigured(cfg, s.table, s.copies[id]);
      PassUnder(cfg, s.table, s'.table, s.copies[id]);
    }
  }

  lemma InsertedRows(cfg: Config, table: map<RowKey, Row>, row: Row)
    requires RowsOk(cfg, table) && row.cols == NO_COLUMNS
    ensures RowsOk(cfg, table[row.Key() := row])
  {
  }

  predicate DisciplinedRun(cfg: Config, ss: seq<System>, steps: seq<Step>) {
    IsRun(cfg, ss, steps) && forall i :: 0 <= i < |steps| ==> Disciplined(cfg, ss[i], steps[i])
  }

  /** Every state of every disciplined run is sound. */
  lemma {:induction false} SoundRun(cfg: Config, ss: seq<System>, steps: seq<Step>, n: nat)
    requires DisciplinedRun(cfg, ss, steps) && n < |ss|
    ensures Sound(cfg, ss[n])
  {
    hide Apply, Enabled, Sound, Disciplined;
    if n == 0 {
      SoundInitially(cfg, ss[0]);
    } else {
      SoundRun(cfg, ss, steps, n - 1);
      SoundStep(cfg, ss[n - 1], steps[n - 1]);
    }
  }

  lemma SoundInitially(cfg: Config, s: System)
    requires Initial(s)
    ensures Sound(cfg, s)
  {
  }
}
