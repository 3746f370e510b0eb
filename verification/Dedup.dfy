/** Deduplication: what each deduper's map holds, and how many copies of a row can be in flight. */
module Dedup {
  import opened Transfers
  import opened Stages
  import opened Dispatch

  /** Rows sit under their own key; copies and snapshot entries are about rows of the table. */
  predicate WellFormed(s: System) {
    && TableOk(s.table)
    && (forall id :: id in s.copies ==> id < s.nextId && OfTable(s.table, s.copies[id].t.packet))
    && (forall id :: id in s.copies ==> PipelineOf(s.copies[id].t.packet) in s.dedupers)
    && (forall i :: 0 <= i < |s.pending| ==> OfTable(s.table, s.pending[i].row.packet))
  }

  predicate TableOk(table: map<RowKey, Row>) {
    forall k :: k in table ==> table[k].Key() == k && table[k].packet.sourceChainID != ""
  }

  predicate OfTable(table: map<RowKey, Row>, p: Packet) {
    KeyOf(p) in table && table[KeyOf(p)].packet == p
  }

  lemma WellFormedSnapshot(cfg: Config, s: System, order: seq<RowKey>)
    requires WellFormed(s) && Enabled(cfg, s, Snapshot(order))
    ensures WellFormed(Apply(cfg, s, Snapshot(order)))
  {
    hide InFlight;
    var s' := Apply(cfg, s, Snapshot(order));
    forall i | 0 <= i < |s'.pending| ensures OfTable(s'.table, s'.pending[i].row.packet) {
      assert order[i] in order;
    }
  }

  lemma WellFormedPush(cfg: Config, s: System, saved: bool)
    requires WellFormed(s) && s.pending != []
    ensures WellFormed(ApplyPush(cfg, s, saved))
  {
    hide Accepts, HasPipeline, Enter, WithPipeline, MarkFailed, OfTable, TableOk;
    var row := s.pending[0].row;
    var rest := s.(pending := s.pending[1..]);
    assert OfTable(s.table, row.packet);
    assert WellFormed(rest);
    WellFormedFailed(rest, row.Key());
    WellFormedEnter(rest, row);
  }

  lemma WellFormedFailed(s: System, k: RowKey)
    requires WellFormed(s)
    ensures k in s.table ==> WellFormed(s.(table := MarkFailed(s.table, k)))
  {
  }

  lemma WellFormedEnter(s: System, row: Row)
    requires WellFormed(s) && OfTable(s.table, row.packet)
    ensures WellFormed(WithPipeline(s, row.packet)) && WellFormed(Enter(WithPipeline(s, row.packet), row))
  {
    hide OfTable, TableOk, TransferKeyOf;
  }

  /** A move keeps every packet, and every row but its own. */
  lemma MoveFacts(cfg: Config, s: System, id: nat, a: Answer)
    requires WellFormed(s) && Enabled(cfg, s, Move(id, a))
    ensures var s', c := ApplyMove(cfg, s, id, a), s.copies[id];
      && s'.table == s.table[c.t.Key() := s'.table[c.t.Key()]]
      && s'.table[c.t.Key()] == s.table[c.t.Key()].(cols :=
           StageStep(OptionsFor(cfg, c.t.packet), StageAt(|c.answers|), a, FlightOf(s, c)).row)
      && s'.copies[id].t.packet == c.t.packet
  {
    hide StageStep, StageAt, Consistent;
    assert EMPTY_KEY !in s.table;
    var c := s.copies[id];
    assert Extends(StageAt(|c.answers|), FlightOf(s, c),
                   StageStep(OptionsFor(cfg, c.t.packet), StageAt(|c.answers|), a, FlightOf(s, c)));
  }

  lemma WellFormedMove(cfg: Config, s: System, id: nat, a: Answer)
    requires WellFormed(s) && Enabled(cfg, s, Move(id, a))
    ensures WellFormed(ApplyMove(cfg, s, id, a))
  {
    hide StageStep, StageAt, Consistent, Extends, EmitsTwice, TableAfter, PipelineOf;
    MoveFacts(cfg, s, id, a);
  }

  lemma WellFormedStep(cfg: Config, s: System, step: Step)
    requires WellFormed(s) && Enabled(cfg, s, step)
    ensures WellFormed(Apply(cfg, s, step))
  {
    hide ApplyMove, ApplyPush;
    match step
    case Insert(row) =>
    case Snapshot(order) => WellFormedSnapshot(cfg, s, order);
    case Push(saved) => WellFormedPush(cfg, s, saved);
    case Move(id, a) => WellFormedMove(cfg, s, id, a);
    case Poll(id) =>
    case Delete(p) =>
    case Tick(now) =>
    case Restart =>
  }

  /** The keys of the copies inside one pipeline. */
  function Travelling(copies: map<nat, Copy>, p: PipelineKey): set<TransferKey> {
    set id | id in copies && PipelineOf(copies[id].t.packet) == p :: TransferKeyOf(copies[id].t)
  }

  function Polled(d: Deduper): set<TransferKey> {
    if d.polled.Some? then {d.polled.value} else {}
  }

  /** Each deduper's map is exactly the keys inside its pipeline and the one polled but not deleted. */
  predicate Exact(s: System) {
    forall p :: p in s.dedupers ==>
      && s.dedupers[p].inPipeline == Travelling(s.copies, p) + Polled(s.dedupers[p])
      && Travelling(s.copies, p) !! Polled(s.dedupers[p])
  }

  /** Across all pipelines, no two copies of one row. */
  predicate Single(copies: map<nat, Copy>) {
    forall i, j :: i in copies && j in copies && copies[i].t.Key() == copies[j].t.Key() ==> i == j
  }

  predicate Deduped(s: System) { WellFormed(s) && Exact(s) && Single(s.copies) }

  /** Every stage emits each input once: no batch stage fails to write the status of a transfer it admits. */
  predicate EmitsOnce(cfg: Config, s: System, step: Step)
    requires Enabled(cfg, s, step)
  {
    step.Move? ==> !EmitsTwice(cfg, s, step.id, step.answer)
  }

  lemma TravellingEnter(copies: map<nat, Copy>, id: nat, c: Copy, p: PipelineKey)
    requires id !in copies
    ensures Travelling(copies[id := c], p)
            == Travelling(copies, p) + (if PipelineOf(c.t.packet) == p then {TransferKeyOf(c.t)} else {})
  {
    var more := copies[id := c];
    forall k | k in Travelling(copies, p) ensures k in Travelling(more, p) {
      var j :| j in copies && PipelineOf(copies[j].t.packet) == p && TransferKeyOf(copies[j].t) == k;
      assert more[j] == copies[j];
    }
    if PipelineOf(c.t.packet) == p {
      assert more[id] == c && TransferKeyOf(c.t) in Travelling(more, p);
    }
  }

  lemma TravellingMove(copies: map<nat, Copy>, id: nat, c: Copy, p: PipelineKey)
    requires id in copies && c.t.packet == copies[id].t.packet
    ensures Travelling(copies[id := c], p) == Travelling(copies, p)
  {
    var moved := copies[id := c];
    forall k ensures k in Travelling(copies, p) <==> k in Travelling(moved, p) {
      if k in Travelling(copies, p) {
        var j :| j in copies && PipelineOf(copies[j].t.packet) == p && TransferKeyOf(copies[j].t) == k;
        assert j in moved && moved[j].t.packet == copies[j].t.packet;
      }
    }
  }

  lemma TravellingPoll(copies: map<nat, Copy>, id: nat, p: PipelineKey)
    requires id in copies && Single(copies)
    ensures Travelling(copies - {id}, p)
            == Travelling(copies, p)
               - (if PipelineOf(copies[id].t.packet) == p then {TransferKeyOf(copies[id].t)} else {})
  {
    var rest := copies - {id};
    forall k ensures k in Travelling(rest, p) <==>
        k in Travelling(copies, p) && !(PipelineOf(copies[id].t.packet) == p && k == TransferKeyOf(copies[id].t)) {
      if k in Travelling(copies, p) {
        var j :| j in copies && PipelineOf(copies[j].t.packet) == p && TransferKeyOf(copies[j].t) == k;
        if j != id { assert rest[j] == copies[j]; }
      }
      if k in Travelling(rest, p) {
        var j :| j in rest && PipelineOf(rest[j].t.packet) == p && TransferKeyOf(rest[j].t) == k;
        KeysAgree(copies[j].t, copies[id].t);
      }
    }
  }

  lemma DedupedEnter(s: System, row: Row)
    requires Deduped(s) && OfTable(s.table, row.packet) && PipelineOf(row.packet) in s.dedupers
    requires TransferKeyOf(Load(row)) !in s.dedupers[PipelineOf(row.packet)].inPipeline
    ensures Deduped(Enter(s, row))
  {
    hide Travelling, TransferKeyOf, TableOk;
    var t, s' := Load(row), Enter(s, row);
    var c := Copy(row, s.clock, [], t, []);
    assert s.nextId !in s.copies;
    forall p | p in s'.dedupers
      ensures s'.dedupers[p].inPipeline == Travelling(s'.copies, p) + Polled(s'.dedupers[p])
      ensures Travelling(s'.copies, p) !! Polled(s'.dedupers[p])
    {
      TravellingEnter(s.copies, s.nextId, c, p);
    }
    forall i | i in s.copies ensures s.copies[i].t.Key() != t.Key() {
      InTravelling(s.copies, i);
      KeysAgree(s.copies[i].t, t);
    }
  }

  lemma InTravelling(copies: map<nat, Copy>, i: nat)
    requires i in copies
    ensures TransferKeyOf(copies[i].t) in Travelling(copies, PipelineOf(copies[i].t.packet))
  {
  }

  lemma DedupedNewPipeline(s: System, p: Packet)
    requires Deduped(s)
    ensures Exact(WithPipeline(s, p))
  {
    hide TransferKeyOf;
    assert PipelineOf(p) !in s.dedupers ==> Travelling(s.copies, PipelineOf(p)) == {};
  }

  lemma DedupedPush(cfg: Config, s: System, saved: bool)
    requires Deduped(s) && s.pending != []
    ensures Deduped(ApplyPush(cfg, s, saved))
  {
    hide Travelling, TransferKeyOf, OfTable, TableOk, MarkFailed;
    var row := s.pending[0].row;
    var rest := s.(pending := s.pending[1..]);
    WellFormedPush(cfg, s, saved);
    assert OfTable(s.table, row.packet);
    assert Deduped(rest);
    WellFormedEnter(rest, row);
    DedupedNewPipeline(rest, row.packet);
    if HasPipeline(cfg, s, row.packet) && Accepts(cfg, s) {
      DedupedEnter(WithPipeline(rest, row.packet), row);
    }
  }

  lemma DedupedMove(cfg: Config, s: System, id: nat, a: Answer)
    requires Deduped(s) && Enabled(cfg, s, Move(id, a)) && !EmitsTwice(cfg, s, id, a)
    ensures Deduped(ApplyMove(cfg, s, id, a))
  {
    hide StageStep, StageAt, Consistent, Extends, Travelling, OfTable, TableOk;
    WellFormedMove(cfg, s, id, a);
    MoveFacts(cfg, s, id, a);
    var s' := ApplyMove(cfg, s, id, a);
    assert s'.copies == s.copies[id := s'.copies[id]];
    forall p | p in s'.dedupers ensures Travelling(s'.copies, p) == Travelling(s.copies, p) {
      TravellingMove(s.copies, id, s'.copies[id], p);
    }
  }

  lemma DedupedPoll(cfg: Config, s: System, id: nat)
    requires Deduped(s) && Enabled(cfg, s, Poll(id))
    ensures Deduped(Apply(cfg, s, Poll(id)))
  {
    hide Travelling, TransferKeyOf, OfTable, TableOk;
    var s' := Apply(cfg, s, Poll(id));
    InTravelling(s.copies, id);
    forall p | p in s'.dedupers
      ensures s'.dedupers[p].inPipeline == Travelling(s'.copies, p) + Polled(s'.dedupers[p])
      ensures Travelling(s'.copies, p) !! Polled(s'.dedupers[p])
    {
      TravellingPoll(s.copies, id, p);
    }
  }

  /** Every step in which each stage emits each input once keeps the maps exact and the copies single. */
  lemma DedupedStep(cfg: Config, s: System, step: Step)
    requires Deduped(s) && Enabled(cfg, s, step) && EmitsOnce(cfg, s, step)
    ensures Deduped(Apply(cfg, s, step))
  {
    hide ApplyMove, ApplyPush, Travelling, OfTable, TableOk, EmitsTwice;
    WellFormedStep(cfg, s, step);
    match step
    case Insert(row) =>
    case Snapshot(order) =>
    case Push(saved) => DedupedPush(cfg, s, saved);
    case Move(id, a) => DedupedMove(cfg, s, id, a);
    case Poll(id) => DedupedPoll(cfg, s, id);
    case Delete(p) =>
    case Tick(now) =>
    case Restart =>
  }

  /** In every run in which each stage emits each input once, in every state: each deduper's map is
      exactly the keys pushed and not yet polled and deleted, and no row has two copies in flight. */
  lemma {:induction false} DedupedRun(cfg: Config, ss: seq<System>, steps: seq<Step>, n: nat)
    requires IsRun(cfg, ss, steps) && n < |ss|
    requires forall i :: 0 <= i < |steps| ==> EmitsOnce(cfg, ss[i], steps[i])
    ensures Deduped(ss[n])
  {
    hide Apply, Enabled, Deduped, EmitsOnce;
    if n == 0 {
      DedupedInitially(ss[0]);
    } else {
      DedupedRun(cfg, ss, steps, n - 1);
      DedupedStep(cfg, ss[n - 1], steps[n - 1]);
    }
  }

  lemma DedupedInitially(s: System)
    requires Initial(s)
    ensures Deduped(s)
  {
  }

  /** That proviso is exact: a stage that emits its input twice always puts two copies of one row
      in flight, however well everything was deduplicated before. */
  lemma SingleExactlyIfOnce(cfg: Config, s: System, id: nat, a: Answer)
    requires Deduped(s) && Enabled(cfg, s, Move(id, a))
    ensures Single(ApplyMove(cfg, s, id, a).copies) <==> !EmitsTwice(cfg, s, id, a)
  {
    hide StageStep, StageAt, Consistent, Extends, Exact, OfTable, TableOk;
    var s' := ApplyMove(cfg, s, id, a);
    if EmitsTwice(cfg, s, id, a) {
      assert id != s.nextId && s'.copies[id].t.Key() == s'.copies[s.nextId].t.Key();
    } else {
      DedupedMove(cfg, s, id, a);
    }
  }

  /** What the second copy then undoes: when one of two copies of a row is polled and its key deleted, the row
      can be pushed again although the other copy is still in flight. */
  lemma TwinUnlocks(cfg: Config, s: System, i: nat, j: nat)
    requires Enabled(cfg, s, Poll(i)) && j in s.copies && i != j && s.copies[j].t.packet == s.copies[i].t.packet
    requires s.pending != [] && s.pending[0].row.packet == s.copies[i].t.packet
    ensures var polled, p := Apply(cfg, s, Poll(i)), PipelineOf(s.copies[i].t.packet);
      && Enabled(cfg, polled, Delete(p))
      && var after := Apply(cfg, polled, Delete(p));
         j in after.copies && after.pending != [] && Accepts(cfg, after)
  {
    PolledAndDeleted(cfg, s, i);
  }
}
