/** Many passes over many rows: the dispatcher, the pipeline manager, the dedupers and the
    pipelines themselves, as one state machine whose steps interleave freely. */
module Dispatch {
  import opened Transfers
  import opened Stages
  import opened Pass

  datatype PipelineKey = PipelineKey(
    sourceChainID: string,
    sourceClientID: string,
    destinationChainID: string,
    destinationClientID: string)

  function PipelineOf(p: Packet): PipelineKey {
    PipelineKey(p.sourceChainID, p.sourceClientID, p.destinationChainID, p.destinationClientID)
  }

  datatype TransferKey = TransferKey(sourceChainID: string, sequence: UInt32, sourceClientID: string)

  function TransferKeyOf(t: Transfer): TransferKey {
    TransferKey(t.packet.sourceChainID, t.Sequence(), t.packet.sourceClientID)
  }

  /** The deduper's key, with its unsigned sequence, tells transfers apart exactly as the table's does; and two share
      a pipeline exactly if they share both chains and both clients. */
  lemma KeysAgree(t: Transfer, u: Transfer)
    ensures TransferKeyOf(t) == TransferKeyOf(u) <==> t.Key() == u.Key()
    ensures PipelineOf(t.packet) == PipelineOf(u.packet) <==>
            && t.packet.sourceChainID == u.packet.sourceChainID && t.packet.sourceClientID == u.packet.sourceClientID
            && t.packet.destinationChainID == u.packet.destinationChainID
            && t.packet.destinationClientID == u.packet.destinationClientID
  {
  }

  /** The pipeline options of each configured pair of source and destination chain. */
  type Config = map<(string, string), Options>

  predicate Configured(cfg: Config, p: Packet) { (p.sourceChainID, p.destinationChainID) in cfg }

  function OptionsFor(cfg: Config, p: Packet): Options
    requires Configured(cfg, p)
  {
    cfg[(p.sourceChainID, p.destinationChainID)]
  }

  /** A transfer travelling through its pipeline, with the row it was loaded from, the time it was
      pushed and the answers of the stages it has been through. */
  datatype Copy = Copy(start: Row, pushed: Time, answers: seq<Answer>, t: Transfer, trace: seq<Event>)

  /** The keys marked as in the pipeline, and the key the output loop has polled but not deleted yet. */
  datatype Deduper = Deduper(inPipeline: set<TransferKey>, polled: Option<TransferKey>)

  /** A row of the dispatcher's snapshot, still to be submitted. `idle` remembers whether the
      row was out of every pipeline when the snapshot was taken. */
  datatype Entry = Entry(row: Row, idle: bool)

  datatype System = System(
    table: map<RowKey, Row>,
    dedupers: map<PipelineKey, Deduper>,
    copies: map<nat, Copy>,
    pending: seq<Entry>,
    clock: Time,
    nextId: nat)

  datatype Step =
    | Insert(row: Row)              // the Relay API adds a row
    | Snapshot(order: seq<RowKey>)  // the dispatcher reads the unfinished rows, in some order
    | Push(saved: bool)             // it submits the next of them; saved: would marking it FAILED succeed
    | Move(id: nat, answer: Answer) // a copy goes through its next stage
    | Poll(id: nat)                 // a deduper's output loop takes a copy that has left the pipeline
    | Delete(pipeline: PipelineKey) // and then deletes its key
    | Tick(now: Time)
    | Restart                       // the relayer stops and starts again; only the table survives

  predicate InFlight(s: System, k: RowKey) {
    exists id :: id in s.copies && s.copies[id].t.Key() == k
  }

  function DeduperOf(s: System, p: PipelineKey): Deduper {
    if p in s.dedupers then s.dedupers[p] else Deduper({}, None)
  }

  /** The pipeline manager has, or can create, a pipeline for the packet. */
  predicate HasPipeline(cfg: Config, s: System, p: Packet) {
    PipelineOf(p) in s.dedupers || Configured(cfg, p)
  }

  /** The next push puts its entry into a pipeline. */
  predicate Accepts(cfg: Config, s: System)
    requires s.pending != []
  {
    var t := Load(s.pending[0].row);
    HasPipeline(cfg, s, t.packet) && TransferKeyOf(t) !in DeduperOf(s, PipelineOf(t.packet)).inPipeline
  }

  predicate Enabled(cfg: Config, s: System, step: Step) {
    match step
    case Insert(row) => row.Key() !in s.table && row.packet.sourceChainID != "" && row.cols == NO_COLUMNS
    case Snapshot(order) =>
      && s.pending == []
      && (forall i, j :: 0 <= i < j < |order| ==> order[i] != order[j])
      && (forall k :: k in order ==> k in s.table && Unfinished(s.table[k].cols.status))
      && (forall k :: k in s.table && Unfinished(s.table[k].cols.status) ==> k in order)
    case Push(_) => s.pending != []
    case Move(id, a) =>
      && id in s.copies && |s.copies[id].answers| < STAGES
      && s.copies[id].t.Key() in s.table && Configured(cfg, s.copies[id].t.packet)
      && s.clock <= a.now <= a.later
    case Poll(id) =>
      && id in s.copies && |s.copies[id].answers| == STAGES
      && PipelineOf(s.copies[id].t.packet) in s.dedupers
      && s.dedupers[PipelineOf(s.copies[id].t.packet)].polled.None?
    case Delete(p) => p in s.dedupers && s.dedupers[p].polled.Some?
    case Tick(now) => s.clock <= now
    case Restart => true
  }

  function Apply(cfg: Config, s: System, step: Step): System
    requires Enabled(cfg, s, step)
  {
    match step
    case Insert(row) => s.(table := s.table[row.Key() := row])
    case Snapshot(order) => s.(pending := seq(|order|, i requires 0 <= i < |order| =>
                                                         assert order[i] in order;
                                                         Entry(s.table[order[i]], !InFlight(s, order[i]))))
    case Push(saved) => ApplyPush(cfg, s, saved)
    case Move(id, a) => ApplyMove(cfg, s, id, a)
    case Poll(id) =>
      var c := s.copies[id];
      var p := PipelineOf(c.t.packet);
      s.(copies := s.copies - {id}, dedupers := s.dedupers[p := s.dedupers[p].(polled := Some(TransferKeyOf(c.t)))])
    case Delete(p) =>
      var d := s.dedupers[p];
      s.(dedupers := s.dedupers[p := Deduper(d.inPipeline - {d.polled.value}, None)])
    case Tick(now) => s.(clock := now)
    case Restart => s.(dedupers := map[], copies := map[], pending := [])
  }

  /** SubmitTransfer: an entry without a pipeline is marked FAILED; one whose key is already in the
      pipeline is dropped; any other is marked as in the pipeline and pushed. */
  function ApplyPush(cfg: Config, s: System, saved: bool): System
    requires s.pending != []
  {
    var rest := s.(pending := s.pending[1..]);
    if !HasPipeline(cfg, s, s.pending[0].row.packet) then
      if saved && s.pending[0].row.Key() in s.table then rest.(table := MarkFailed(s.table, s.pending[0].row.Key()))
      else rest
    else if !Accepts(cfg, s) then WithPipeline(rest, s.pending[0].row.packet)
    else Enter(WithPipeline(rest, s.pending[0].row.packet), s.pending[0].row)
  }

  /** The pipeline exists from now on. */
  function WithPipeline(s: System, p: Packet): System {
    s.(dedupers := s.dedupers[PipelineOf(p) := DeduperOf(s, PipelineOf(p))])
  }

  /** The deduper marks the key and pushes the loaded row. */
  function Enter(s: System, row: Row): System
    requires PipelineOf(row.packet) in s.dedupers
  {
    var t, d := Load(row), s.dedupers[PipelineOf(row.packet)];
    s.(dedupers := s.dedupers[PipelineOf(row.packet) := d.(inPipeline := d.inPipeline + {TransferKeyOf(t)})],
       copies := s.copies[s.nextId := Copy(row, s.clock, [], t, [])],
       nextId := s.nextId + 1)
  }

  function MarkFailed(table: map<RowKey, Row>, k: RowKey): map<RowKey, Row>
    requires k in table
  {
    table[k := table[k].(cols := table[k].cols.(status := FAILED))]
  }

  /** The entry has a pipeline exactly if one exists between its chains and clients, or its chains are configured. */
  predicate Routable(cfg: Config, s: System, p: Packet) {
    || PipelineKey(p.sourceChainID, p.sourceClientID, p.destinationChainID, p.destinationClientID) in s.dedupers
    || (p.sourceChainID, p.destinationChainID) in cfg
  }

  /** All of the table but the status of one row. */
  predicate OnlyFails(before: map<RowKey, Row>, after: map<RowKey, Row>, k: RowKey) {
    && after.Keys == before.Keys
    && forall j :: j in before ==>
         after[j] == if j == k then Row(before[j].packet, before[j].cols.(status := FAILED)) else before[j]
  }

  /** Without a pipeline the row of the next entry is marked FAILED, if that is saved, and nothing else of the system
      changes but that the entry is gone. */
  lemma UnroutableFails(cfg: Config, s: System, saved: bool)
    requires s.pending != [] && !Routable(cfg, s, s.pending[0].row.packet)
    ensures var after, k := ApplyPush(cfg, s, saved), s.pending[0].row.Key();
            && after == s.(pending := s.pending[1..], table := after.table)
            && (if saved && k in s.table then OnlyFails(s.table, after.table, k) else after.table == s.table)
  {
  }

  /** The pipeline has the key marked. */
  predicate Holds(s: System, p: PipelineKey, key: TransferKey) {
    p in s.dedupers && key in s.dedupers[p].inPipeline
  }

  /** With a pipeline the entry enters exactly if its key is not marked there, as one new copy that is the row as
      read; and then its key is marked there, and beside it what was marked before. */
  lemma RoutableEnters(cfg: Config, s: System, saved: bool, q: PipelineKey, x: TransferKey)
    requires s.pending != [] && Routable(cfg, s, s.pending[0].row.packet)
    ensures var row, after := s.pending[0].row, ApplyPush(cfg, s, saved);
            var p := PipelineKey(row.packet.sourceChainID, row.packet.sourceClientID,
                                 row.packet.destinationChainID, row.packet.destinationClientID);
            var key := TransferKey(row.packet.sourceChainID, ToUInt32(row.packet.sequence), row.packet.sourceClientID);
            var copy := Copy(row, s.clock, [], Transfer(row.packet, row.cols, false), []);
            && after == s.(pending := s.pending[1..], dedupers := after.dedupers,
                           copies := if Holds(s, p, key) then s.copies else s.copies[s.nextId := copy],
                           nextId := if Holds(s, p, key) then s.nextId else s.nextId + 1)
            && (Holds(after, q, x) <==> Holds(s, q, x) || (q == p && x == key))
  {
  }

  /** A snapshot takes exactly the unfinished rows, each as it stands and each once, and changes nothing else. */
  lemma SnapshotExactly(cfg: Config, s: System, order: seq<RowKey>, k: RowKey)
    requires Enabled(cfg, s, Snapshot(order))
    ensures var after := Apply(cfg, s, Snapshot(order));
            && after == s.(pending := after.pending) && |after.pending| == |order|
            && (k in order <==>
                  && k in s.table
                  && var status := s.table[k].cols.status;
                     && status != COMPLETE_WITH_ACK && status != COMPLETE_WITH_TIMEOUT && status != FAILED
                     && status != COMPLETE_WITH_WRITE_ACK_SUCCESS && status != COMPLETE_WITH_WRITE_ACK_ERROR)
            && (forall i :: 0 <= i < |order| ==>
                  && after.pending[i].row == s.table[order[i]]
                  && (after.pending[i].idle <==> forall id :: id in s.copies ==> s.copies[id].t.Key() != order[i]))
            && (forall i, j :: 0 <= i < j < |order| ==> order[i] != order[j])
  {
  }

  /** Of a restart only the table survives. The snapshot after it is of rows in no pipeline, and the first push from it
      enters one exactly if its chains are configured. */
  lemma RestartBeginsAnew(cfg: Config, s: System, order: seq<RowKey>, saved: bool)
    requires Enabled(cfg, Apply(cfg, s, Restart), Snapshot(order)) && order != []
    ensures var empty := Apply(cfg, s, Restart);
            var polled := Apply(cfg, empty, Snapshot(order));
            var row, pushed := polled.pending[0].row, ApplyPush(cfg, polled, saved);
            && empty.table == s.table && empty.clock == s.clock
            && (forall e :: e in polled.pending ==> e.idle)
            && row == s.table[order[0]]
            && pushed.copies == if (row.packet.sourceChainID, row.packet.destinationChainID) in cfg
                                then map[s.nextId := Copy(row, s.clock, [], Transfer(row.packet, row.cols, false), [])]
                                else map[]
  {
    hide ApplyPush;
    var polled := Apply(cfg, Apply(cfg, s, Restart), Snapshot(order));
    var row := polled.pending[0].row;
    assert order[0] in order;
    if Routable(cfg, polled, row.packet) {
      RoutableEnters(cfg, polled, saved, PipelineOf(row.packet), TransferKeyOf(Load(row)));
    } else {
      UnroutableFails(cfg, polled, saved);
    }
  }

  /** What a poll and the deletion after it do. */
  lemma PolledAndDeleted(cfg: Config, s: System, id: nat)
    requires Enabled(cfg, s, Poll(id))
    ensures var t, polled := s.copies[id].t, Apply(cfg, s, Poll(id));
            var p := PipelineOf(t.packet);
            && Enabled(cfg, polled, Delete(p))
            && Apply(cfg, polled, Delete(p))
               == s.(copies := s.copies - {id},
                     dedupers := s.dedupers[p := Deduper(s.dedupers[p].inPipeline - {TransferKeyOf(t)}, None)])
  {
  }

  function FlightOf(s: System, c: Copy): Flight
    requires c.t.Key() in s.table
  {
    Flight(c.t, s.table[c.t.Key()].cols, c.trace)
  }

  /** A batch stage whose status write fails for an admitted transfer lists it both among the
      processed and among the skipped, and so emits it twice. */
  predicate EmitsTwice(cfg: Config, s: System, id: nat, a: Answer)
    requires Enabled(cfg, s, Move(id, a))
  {
    var c := s.copies[id];
    var stage := StageAt(|c.answers|);
    stage.Batched() && Admitted(OptionsFor(cfg, c.t.packet), stage, a, c.t) && !a.statusSaved
  }

  function ApplyMove(cfg: Config, s: System, id: nat, a: Answer): System
    requires Enabled(cfg, s, Move(id, a))
  {
    var c := s.copies[id];
    var stage := StageAt(|c.answers|);
    var g := StageStep(OptionsFor(cfg, c.t.packet), stage, a, FlightOf(s, c));
    var moved := Copy(c.start, c.pushed, c.answers + [a], g.t, g.trace);
    s.(table := TableAfter(s.table, stage, a, FlightOf(s, c), g),
       copies := if EmitsTwice(cfg, s, id, a) then s.copies[id := moved][s.nextId := moved] else s.copies[id := moved],
       clock := a.later,
       nextId := if EmitsTwice(cfg, s, id, a) then s.nextId + 1 else s.nextId)
  }

  /** An empty table and a relayer that has done nothing yet. */
  predicate Initial(s: System) {
    s.table == map[] && s.dedupers == map[] && s.copies == map[] && s.pending == [] && s.nextId == 0
  }

  /** The states of a run are one more than its steps. */
  predicate IsRun(cfg: Config, ss: seq<System>, steps: seq<Step>) {
    && |ss| == |steps| + 1 && Initial(ss[0])
    && forall i :: 0 <= i < |steps| ==> Enabled(cfg, ss[i], steps[i]) && ss[i + 1] == Apply(cfg, ss[i], steps[i])
  }
}
