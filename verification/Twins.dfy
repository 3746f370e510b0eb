/** A run in which one failed status write ends with two live copies of one row. */
module Twins {
  import opened Transfers
  import opened Stages
  import opened Pass
  import opened Dispatch
  import opened Witnesses

  /** The answers up to the recv stage: not received, and every gate says go ahead. */
  function Ahead(k: nat): Answer { Said(k != 0, None, None) }

  function AllAhead(n: nat): (answers: seq<Answer>)
    ensures |answers| == n
    ensures forall i :: 0 <= i < n ==> answers[i] == Ahead(i)
  {
    seq(n, i requires 0 <= i < n => Ahead(i))
  }

  /** The recv stage's answer: the status is not saved. */
  const UNSAVED := Said(true, None, None).(statusSaved := false)

  /** A run with one step that emits a transfer twice. */
  const ONCE := Kind(false, 1, None)

  predicate Waiting(f: Flight) {
    && f.t.packet == LATE.packet && Live(f.t) && !f.t.HasRecv() && !f.t.HasAck() && !f.t.HasTimeout()
    && Unfinished(f.row.status)
  }

  lemma WaitingStep(k: nat, f: Flight)
    requires k < 7 && Waiting(f)
    ensures Waiting(StageStep(OPTS, StageAt(k), Ahead(k), f))
  {
    hide Extends, Consistent;
  }

  lemma {:induction false} WaitingRun(n: nat)
    requires n <= 7
    ensures Waiting(Run(OPTS, AllAhead(7), Begin(LATE), n))
  {
    hide Extends, Consistent, StageStep, Ahead;
    if n != 0 {
      WaitingRun(n - 1);
      WaitingStep(n - 1, Run(OPTS, AllAhead(7), Begin(LATE), n - 1));
    }
  }

  /** The failed status write: the transfer is errored, its row stays, and it comes out twice. */
  lemma FailedWrite(f: Flight)
    requires Waiting(f)
    ensures Admitted(OPTS, DeliverRecv, UNSAVED, f.t)
    ensures var g := StageStep(OPTS, DeliverRecv, UNSAVED, f);
            g.t.errored && g.t.packet == f.t.packet && g.row == f.row
  {
    hide Extends, Consistent;
  }

  /** The only row, and whatever copies of it are about. */
  function Only(row: Row, copies: map<nat, Copy>, keys: set<TransferKey>, pending: seq<Entry>, nextId: nat): System {
    System(map[K := row], map[PIPELINE := Deduper(keys, None)], copies, pending, 0, nextId)
  }

  /** Two copies of the row, both errored. */
  lemma TwoErrored() returns (row: Row, c: Copy)
    ensures row.packet == LATE.packet && Unfinished(row.cols.status)
    ensures c.t.packet == LATE.packet && c.t.errored && |c.answers| <= STAGES
    ensures Reachable(CFG, Only(row, map[0 := c, 1 := c], {KEY}, [], 2), ONCE)
  {
    hide Reachable, Extends, Consistent, StageStep, Run, Guard, Unfinished;
    var answers := AllAhead(7);
    Started(0);
    Relaxed(FirstCopy(LATE, Begin(LATE), [], []));
    MovedOn(0, LATE, 0, answers, [], 7, FREE);
    assert answers[..7] == answers;
    WaitingRun(7);
    row, c := FailedMove(Run(OPTS, answers, Begin(LATE), 7), answers);
  }

  /** The move through the recv stage that makes the two copies. */
  lemma FailedMove(f: Flight, answers: seq<Answer>) returns (row: Row, c: Copy)
    requires |answers| == 7 && Waiting(f) && Reachable(CFG, FirstCopy(LATE, f, answers, []), FREE)
    ensures row.packet == LATE.packet && Unfinished(row.cols.status)
    ensures c.t.packet == LATE.packet && c.t.errored && |c.answers| <= STAGES
    ensures Reachable(CFG, Only(row, map[0 := c, 1 := c], {KEY}, [], 2), ONCE)
  {
    hide Reachable, Extends, Consistent, StageStep, Guard, Unfinished, Admitted;
    var s := FirstCopy(LATE, f, answers, []);
    FailedWrite(f);
    assert StageAt(7) == DeliverRecv;
    var g := StageStep(OPTS, DeliverRecv, UNSAVED, f);
    row := Row(LATE.packet, g.row);
    c := Copy(LATE, 0, answers + [UNSAVED], g.t, g.trace);
    assert Enabled(CFG, s, Move(0, UNSAVED)) && FlightOf(s, s.copies[0]) == f && EmitsTwice(CFG, s, 0, UNSAVED);
    assert TableAfter(s.table, DeliverRecv, UNSAVED, f, g) == map[K := row];
    assert Apply(CFG, s, Move(0, UNSAVED)) == Only(row, map[0 := c, 1 := c], {KEY}, [], 2);
    ReachStep(CFG, s, Move(0, UNSAVED), FREE);
  }

  /** An errored copy goes through the rest of the pipeline untouched. */
  lemma {:induction false} GoesThrough(s: System, id: nat) returns (answers: seq<Answer>)
    requires Reachable(CFG, s, ONCE) && id in s.copies && s.clock == 0
    requires s.copies[id].t.errored && s.copies[id].t.packet == LATE.packet && |s.copies[id].answers| <= STAGES
    requires K in s.table
    ensures |answers| == STAGES
    ensures Reachable(CFG, s.(copies := s.copies[id := s.copies[id].(answers := answers)]), ONCE)
    decreases STAGES - |s.copies[id].answers|
  {
    hide Reachable, Extends, Consistent, StageAt;
    var c := s.copies[id];
    if |c.answers| == STAGES {
      answers := c.answers;
      assert s.copies[id := c] == s.copies;
    } else {
      var a := Said(true, None, None);
      Untouched(s, id, a);
      ReachStep(CFG, s, Move(id, a), ONCE);
      var next := s.(copies := s.copies[id := c.(answers := c.answers + [a])]);
      answers := GoesThrough(next, id);
      assert next.copies[id := next.copies[id].(answers := answers)] == s.copies[id := c.(answers := answers)];
    }
  }

  lemma Untouched(s: System, id: nat, a: Answer)
    requires id in s.copies && s.clock == 0 && a == Said(true, None, None) && K in s.table
    requires s.copies[id].t.errored && s.copies[id].t.packet == LATE.packet && |s.copies[id].answers| < STAGES
    ensures Enabled(CFG, s, Move(id, a))
    ensures !Doubles(CFG, s, Move(id, a))
    ensures Apply(CFG, s, Move(id, a))
            == s.(copies := s.copies[id := s.copies[id].(answers := s.copies[id].answers + [a])])
  {
    hide StageStep, StageAt, Extends, Consistent, Guard;
    var c := s.copies[id];
    var f, stage := FlightOf(s, c), StageAt(|c.answers|);
    assert StageStep(OPTS, stage, a, f) == f;
    assert TableAfter(s.table, stage, a, f, f) == s.table;
  }

  /** A snapshot and the push from it, of a row whose key is in no map. */
  lemma SnapshotAndPush(row: Row, copies: map<nat, Copy>, nextId: nat)
    requires row.packet == LATE.packet && Unfinished(row.cols.status)
    requires Reachable(CFG, Only(row, copies, {}, [], nextId), ONCE)
    ensures Reachable(CFG, Only(row, copies[nextId := Copy(row, 0, [], Load(row), [])], {KEY}, [], nextId + 1), ONCE)
  {
    hide Reachable, InFlight;
    var s := Only(row, copies, {}, [], nextId);
    Snapshots(s, row);
    ReachPlain(CFG, s, Snapshot([K]), ONCE);
    PushIn(row, copies, nextId, Entry(row, !InFlight(s, K)));
  }

  lemma PushIn(row: Row, copies: map<nat, Copy>, nextId: nat, e: Entry)
    requires row.packet == LATE.packet && e.row == row
    requires Reachable(CFG, Only(row, copies, {}, [e], nextId), ONCE)
    ensures Reachable(CFG, Only(row, copies[nextId := Copy(row, 0, [], Load(row), [])], {KEY}, [], nextId + 1), ONCE)
  {
    hide Reachable;
    var s := Only(row, copies, {}, [e], nextId);
    assert s.pending[1..] == [];
    assert PipelineOf(row.packet) == PIPELINE && TransferKeyOf(Load(row)) == KEY;
    assert Accepts(CFG, s);
    var rest := s.(pending := []);
    assert WithPipeline(rest, row.packet) == rest;
    var key: set<TransferKey> := {} + {KEY};
    assert key == {KEY};
    ReachPlain(CFG, s, Push(true), ONCE);
    assert Apply(CFG, s, Push(true)) == Enter(rest, row);
    var none, marked := Deduper({}, None), Deduper({KEY}, None);
    assert map[PIPELINE := none][PIPELINE := marked] == map[PIPELINE := marked];
    assert Enter(rest, row).dedupers == map[PIPELINE := marked];
  }

  /** A copy that has been through the pipeline is polled, and the key deleted. */
  lemma PolledOut(row: Row, copies: map<nat, Copy>, pending: seq<Entry>, nextId: nat, id: nat)
    requires id in copies && |copies[id].answers| == STAGES && copies[id].t.packet == LATE.packet
    requires Reachable(CFG, Only(row, copies, {KEY}, pending, nextId), ONCE)
    ensures Reachable(CFG, Only(row, copies - {id}, {}, pending, nextId), ONCE)
  {
    hide Reachable;
    var s := Only(row, copies, {KEY}, pending, nextId);
    assert PipelineOf(copies[id].t.packet) == PIPELINE && TransferKeyOf(copies[id].t) == KEY;
    PolledAndDeleted(CFG, s, id);
    ReachPlain(CFG, s, Poll(id), ONCE);
    ReachPlain(CFG, Apply(CFG, s, Poll(id)), Delete(PIPELINE), ONCE);
    var none, marked := Deduper({KEY} - {KEY}, None), Deduper({KEY}, None);
    assert none == Deduper({}, None);
    assert map[PIPELINE := marked][PIPELINE := none] == map[PIPELINE := none];
  }

  /** Both twins have been through the pipeline, and the first has been polled out. */
  lemma OneTwinLeft() returns (row: Row, c: Copy)
    ensures row.packet == LATE.packet && Unfinished(row.cols.status)
    ensures c.t.packet == LATE.packet && |c.answers| == STAGES
    ensures Reachable(CFG, Only(row, map[1 := c], {}, [], 2), ONCE)
  {
    hide Reachable, Unfinished;
    var twin;
    row, twin := TwoErrored();
    var answers := GoesThrough(Only(row, map[0 := twin, 1 := twin], {KEY}, [], 2), 0);
    var done := twin.(answers := answers);
    assert map[0 := twin, 1 := twin][0 := done] == map[0 := done, 1 := twin];
    answers := GoesThrough(Only(row, map[0 := done, 1 := twin], {KEY}, [], 2), 1);
    c := twin.(answers := answers);
    assert map[0 := done, 1 := twin][1 := c] == map[0 := done, 1 := c];
    PolledOut(row, map[0 := done, 1 := c], [], 2, 0);
    assert map[0 := done, 1 := c] - {0} == map[1 := c];
  }

  /** One failed status write, and snapshots taken while the twins are in flight: the twin that is polled last
      deletes the key of the copy that has been pushed meanwhile, and a second live copy is let in. */
  lemma TwoLiveCopies()
    ensures exists cfg, s, i, j ::
              && Reachable(cfg, s, ONCE) && i in s.copies && j in s.copies && i != j
              && s.copies[i].t.Key() == s.copies[j].t.Key() && !s.copies[i].t.errored && !s.copies[j].t.errored
  {
    hide Reachable, Unfinished;
    var row, c := OneTwinLeft();
    SnapshotAndPush(row, map[1 := c], 2);
    var live := Copy(row, 0, [], Load(row), []);
    var both := map[1 := c][2 := live];
    PolledOut(row, both, [], 3, 1);
    assert both - {1} == map[2 := live];
    SnapshotAndPush(row, map[2 := live], 3);
    var s := Only(row, map[2 := live][3 := live], {KEY}, [], 4);
    assert Reachable(CFG, s, ONCE) && 2 in s.copies && 3 in s.copies;
  }
}
