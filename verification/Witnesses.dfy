/** Concrete runs that show what can happen: a finished transfer taken up again from a stale snapshot, and
    a row left with an ack alone. */
module Witnesses {
  import opened Transfers
  import opened Stages
  import opened Pass
  import opened Dispatch
  import opened Runs
  import opened Lifecycle
  import FinalizedTime

  /** The step emits a transfer twice. */
  predicate Doubles(cfg: Config, s: System, step: Step)
    requires Enabled(cfg, s, step)
  {
    step.Move? && EmitsTwice(cfg, s, step.id, step.answer)
  }

  /** How many of the first n steps of a run do. */
  ghost function Doublings(cfg: Config, ss: seq<System>, steps: seq<Step>, n: nat): nat
    requires IsRun(cfg, ss, steps) && n <= |steps|
  {
    if n == 0 then 0
    else Doublings(cfg, ss, steps, n - 1) + if Doubles(cfg, ss[n - 1], steps[n - 1]) then 1 else 0
  }

  /** What is asked of a run: to be disciplined; how many steps emit twice; a state to come through. */
  datatype Kind = Kind(disciplined: bool, doublings: nat, through: Option<System>)

  const STRICT := Kind(true, 0, None)
  const FREE := Kind(false, 0, None)

  ghost predicate OfKind(cfg: Config, ss: seq<System>, steps: seq<Step>, kind: Kind) {
    && IsRun(cfg, ss, steps) && |ss| == |steps| + 1
    && (kind.disciplined ==> DisciplinedRun(cfg, ss, steps))
    && Doublings(cfg, ss, steps, |steps|) == kind.doublings
    && (kind.through.Some? ==> kind.through.value in ss)
  }

  /** Some run of the kind gets here. */
  ghost predicate Reachable(cfg: Config, s: System, kind: Kind) {
    exists ss, steps :: OfKind(cfg, ss, steps, kind) && ss[|steps|] == s
  }

  /** The kind of a run with one more step. */
  function Longer(cfg: Config, s: System, step: Step, kind: Kind): Kind
    requires Enabled(cfg, s, step)
  {
    if Doubles(cfg, s, step) then kind.(doublings := kind.doublings + 1) else kind
  }

  lemma {:induction false} DoublingsPrefix(cfg: Config, ss: seq<System>, steps: seq<Step>, s: System, step: Step,
                                           n: nat)
    requires IsRun(cfg, ss, steps) && IsRun(cfg, ss + [s], steps + [step]) && n <= |steps|
    ensures Doublings(cfg, ss + [s], steps + [step], n) == Doublings(cfg, ss, steps, n)
  {
    hide Apply, Doubles;
    if n != 0 {
      DoublingsPrefix(cfg, ss, steps, s, step, n - 1);
      assert (ss + [s])[n - 1] == ss[n - 1] && (steps + [step])[n - 1] == steps[n - 1];
    }
  }

  lemma RunStep(cfg: Config, ss: seq<System>, steps: seq<Step>, step: Step)
    requires IsRun(cfg, ss, steps) && Enabled(cfg, ss[|steps|], step)
    ensures IsRun(cfg, ss + [Apply(cfg, ss[|steps|], step)], steps + [step])
    ensures DisciplinedRun(cfg, ss, steps) && Disciplined(cfg, ss[|steps|], step) ==>
              DisciplinedRun(cfg, ss + [Apply(cfg, ss[|steps|], step)], steps + [step])
  {
    hide Enabled, Apply, Disciplined;
    var ss', steps' := ss + [Apply(cfg, ss[|steps|], step)], steps + [step];
    forall i | 0 <= i < |steps'|
      ensures Enabled(cfg, ss'[i], steps'[i]) && ss'[i + 1] == Apply(cfg, ss'[i], steps'[i])
      ensures DisciplinedRun(cfg, ss, steps) && Disciplined(cfg, ss[|steps|], step) ==>
                Disciplined(cfg, ss'[i], steps'[i])
    {
      if i < |steps| {
        assert ss'[i] == ss[i] && ss'[i + 1] == ss[i + 1] && steps'[i] == steps[i];
      }
    }
  }

  lemma ReachStep(cfg: Config, s: System, step: Step, kind: Kind)
    requires Reachable(cfg, s, kind) && Enabled(cfg, s, step) && (kind.disciplined ==> Disciplined(cfg, s, step))
    ensures Reachable(cfg, Apply(cfg, s, step), Longer(cfg, s, step, kind))
  {
    hide Enabled, Apply, Disciplined, Doubles, IsRun, DisciplinedRun;
    var ss, steps :| OfKind(cfg, ss, steps, kind) && ss[|steps|] == s;
    RunStep(cfg, ss, steps, step);
    var ss', steps' := ss + [Apply(cfg, s, step)], steps + [step];
    DoublingsPrefix(cfg, ss, steps, Apply(cfg, s, step), step, |steps|);
    assert ss'[|steps|] == ss[|steps|] && steps'[|steps|] == step;
    assert OfKind(cfg, ss', steps', Longer(cfg, s, step, kind)) && ss'[|steps'|] == Apply(cfg, s, step);
  }

  /** A step that is no move. */
  lemma ReachPlain(cfg: Config, s: System, step: Step, kind: Kind)
    requires Reachable(cfg, s, kind) && Enabled(cfg, s, step) && (kind.disciplined ==> Disciplined(cfg, s, step))
    requires !step.Move?
    ensures Reachable(cfg, Apply(cfg, s, step), kind)
  {
    hide Enabled, Apply, Disciplined, Reachable;
    ReachStep(cfg, s, step, kind);
  }

  lemma Relaxed(s: System)
    requires Reachable(CFG, s, STRICT)
    ensures Reachable(CFG, s, FREE)
  {
    hide IsRun, DisciplinedRun;
    var ss, steps :| OfKind(CFG, ss, steps, STRICT) && ss[|steps|] == s;
    assert OfKind(CFG, ss, steps, FREE);
  }

  /** From here on the run has come through here. */
  lemma ComesThrough(s: System, kind: Kind)
    requires Reachable(CFG, s, kind)
    ensures Reachable(CFG, s, kind.(through := Some(s)))
  {
    hide IsRun, DisciplinedRun;
    var ss, steps :| OfKind(CFG, ss, steps, kind) && ss[|steps|] == s;
    assert OfKind(CFG, ss, steps, kind.(through := Some(s)));
  }

  /** A new row with the given deadline, between two configured chains without gas calculators. */
  function New(deadline: Time): Row { Row(Packet("a", "b", "h", 1, "c", "d", deadline), NO_COLUMNS) }

  const K := RowKey("a", "c", 1)

  /** One whose deadline has passed at time 0. */
  const ROW := New(-1)
  const OPTS := Options(true, true, false, false)
  const CFG: Config := map[("a", "b") := OPTS]
  const PIPELINE := PipelineKey("a", "c", "b", "d")
  const KEY := TransferKey("a", 1, "c")

  /** The packet of such a row. */
  predicate Ours(p: Packet) { p == New(p.timeoutTimestamp).packet }

  /** The only row, in flight as the copy with the given number, which was loaded from start. */
  function One(id: nat, start: Row, pushed: Time, f: Flight, answers: seq<Answer>, pending: seq<Entry>, clock: Time)
    : System
  {
    System(map[K := Row(start.packet, f.row)], map[PIPELINE := Deduper({KEY}, None)],
           map[id := Copy(start, pushed, answers, f.t, f.trace)], pending, clock, id + 1)
  }

  /** The first copy, at time 0. */
  function FirstCopy(start: Row, f: Flight, answers: seq<Answer>, pending: seq<Entry>): System {
    One(0, start, 0, f, answers, pending, 0)
  }

  /** A new row is pushed from the first snapshot. */
  lemma Started(d: Time)
    ensures Reachable(CFG, FirstCopy(New(d), Begin(New(d)), [], []), STRICT)
  {
    hide Reachable, Disciplined;
    var row := New(d);
    var s0 := System(map[], map[], map[], [], 0, 0);
    Nowhere(s0);
    Undemanding(s0, Insert(row));
    ReachPlain(CFG, s0, Insert(row), STRICT);
    var s1 := Apply(CFG, s0, Insert(row));
    assert s1 == s0.(table := map[K := row]);
    Snapshots(s1, row);
    Undemanding(s1, Snapshot([K]));
    ReachPlain(CFG, s1, Snapshot([K]), STRICT);
    var s2 := s1.(pending := [Entry(row, true)]);
    assert Apply(CFG, s1, Snapshot([K])) == s2;
    FirstPush(s2, d);
    IdlePush(s2);
    ReachPlain(CFG, s2, Push(true), STRICT);
  }

  lemma Nowhere(s0: System)
    requires Initial(s0)
    ensures Reachable(CFG, s0, STRICT)
  {
    var ss, none: seq<Step> := [s0], [];
    assert OfKind(CFG, ss, none, STRICT) && ss[|none|] == s0;
  }

  /** Only pushes are asked for discipline, */
  lemma Undemanding(s: System, step: Step)
    requires Enabled(CFG, s, step) && !step.Push?
    ensures Disciplined(CFG, s, step)
  {
  }

  /** and those of idle entries have it. */
  lemma IdlePush(s: System)
    requires s.pending != [] && s.pending[0].idle
    ensures Enabled(CFG, s, Push(true)) && Disciplined(CFG, s, Push(true))
  {
  }

  lemma Snapshots(s: System, row: Row)
    requires s.table == map[K := row] && s.pending == [] && Unfinished(row.cols.status)
    ensures Enabled(CFG, s, Snapshot([K]))
    ensures Apply(CFG, s, Snapshot([K])) == s.(pending := [Entry(row, !InFlight(s, K))])
  {
    var order := [K];
    assert order[0] in order;
  }

  lemma FirstPush(s: System, d: Time)
    requires s == System(map[K := New(d)], map[], map[], [Entry(New(d), true)], 0, 0)
    ensures Apply(CFG, s, Push(true)) == FirstCopy(New(d), Begin(New(d)), [], [])
  {
    var row := New(d);
    assert s.pending[1..] == [];
    assert PipelineOf(row.packet) == PIPELINE && TransferKeyOf(Load(row)) == KEY;
    assert Accepts(CFG, s);
    var rest := s.(pending := []);
    var made := WithPipeline(rest, row.packet);
    assert made == rest.(dedupers := map[PIPELINE := Deduper({}, None)]);
    assert Apply(CFG, s, Push(true)) == Enter(made, row);
    var key: set<TransferKey> := {} + {KEY};
    assert key == {KEY};
    assert Enter(made, row).dedupers == map[PIPELINE := Deduper({KEY}, None)];
  }

  /** An answer at time 0 with which every storage call succeeds. */
  function Said(reply: bool, ack: Option<BridgeTx>, timeout: Option<BridgeTx>): Answer {
    Answer(0, 0, true, Some(reply), ack, timeout, Unavailable, None, true, None, true)
  }

  lemma Moved(id: nat, start: Row, pushed: Time, f: Flight, answers: seq<Answer>, pending: seq<Entry>, clock: Time,
              a: Answer, kind: Kind)
    requires |answers| < STAGES && Ours(start.packet) && f.t.packet == start.packet
    requires clock <= a.now <= a.later && a.statusSaved
    requires Reachable(CFG, One(id, start, pushed, f, answers, pending, clock), kind)
    ensures Reachable(CFG, One(id, start, pushed, StageStep(OPTS, StageAt(|answers|), a, f), answers + [a], pending,
                               a.later), kind)
  {
    hide StageStep, StageAt, Reachable, Extends, Consistent, Guard;
    var s, g := One(id, start, pushed, f, answers, pending, clock), StageStep(OPTS, StageAt(|answers|), a, f);
    assert Enabled(CFG, s, Move(id, a)) && FlightOf(s, s.copies[id]) == f;
    assert !EmitsTwice(CFG, s, id, a);
    assert TableAfter(s.table, StageAt(|answers|), a, f, g) == map[K := Row(start.packet, g.row)];
    assert Apply(CFG, s, Move(id, a)) == One(id, start, pushed, g, answers + [a], pending, a.later);
    ReachStep(CFG, s, Move(id, a), kind);
  }

  /** The time after the first n answers. */
  function ClockAfter(clock: Time, answers: seq<Answer>, n: nat): Time
    requires n <= |answers|
  {
    if n == 0 then clock else answers[n - 1].later
  }

  /** The answers follow each other in time, and with each of them the status is saved. */
  predicate InOrder(clock: Time, answers: seq<Answer>) {
    forall i :: 0 <= i < |answers| ==>
      ClockAfter(clock, answers, i) <= answers[i].now <= answers[i].later && answers[i].statusSaved
  }

  lemma OrderAt(clock: Time, answers: seq<Answer>, i: nat)
    requires InOrder(clock, answers) && i < |answers|
    ensures ClockAfter(clock, answers, i) <= answers[i].now <= answers[i].later && answers[i].statusSaved
  {
  }

  lemma RunNext(answers: seq<Answer>, f: Flight, n: nat)
    requires n <= |answers| <= STAGES
    ensures Run(OPTS, answers, f, n)
            == if n == 0 then f
               else StageStep(OPTS, StageAt(n - 1), answers[n - 1], Run(OPTS, answers, f, n - 1))
  {
    hide StageStep, StageAt;
  }

  /** The first n moves of the only copy. */
  lemma {:induction false} MovedOn(id: nat, start: Row, clock: Time, answers: seq<Answer>, pending: seq<Entry>, n: nat,
                                   kind: Kind)
    requires n <= |answers| <= STAGES && Ours(start.packet) && InOrder(clock, answers)
    requires Reachable(CFG, One(id, start, clock, Begin(start), [], pending, clock), kind)
    ensures Reachable(CFG, One(id, start, clock, Run(OPTS, answers, Begin(start), n), answers[..n], pending,
                               ClockAfter(clock, answers, n)), kind)
  {
    hide StageStep, StageAt, Reachable, Extends, Consistent, Ours, Run, InOrder, One;
    var f := Begin(start);
    RunNext(answers, f, n);
    if n == 0 {
      assert answers[..0] == [];
    } else {
      OrderAt(clock, answers, n - 1);
      MovedOn(id, start, clock, answers, pending, n - 1, kind);
      AbsentEarlier(OPTS, answers, f, n - 1, n - 1);
      Moved(id, start, clock, Run(OPTS, answers, f, n - 1), answers[..n - 1], pending,
            ClockAfter(clock, answers, n - 1), answers[n - 1], kind);
      assert answers[..n - 1] + [answers[n - 1]] == answers[..n];
    }
  }

  const TX := BridgeTx("t", 0, "r")

  /** Past its deadline, a packet that was not received but whose commitment is gone: the source chain has
      an ack for it. Its row then holds an ack alone, and by `AckAloneForGood` is never finished. */
  lemma AckAloneReachable()
    ensures exists cfg, s, k :: Reachable(cfg, s, STRICT) && Stuck(s, k) && Configured(cfg, s.table[k].packet)
  {
    hide Reachable, Extends, Consistent, StageStep, Run;
    Started(-1);
    var a := Said(false, Some(TX), None);
    var answers := [a, a];
    MovedOn(0, ROW, 0, answers, [], 2, STRICT);
    FirstTwo(answers, Begin(ROW));
    AckFound(a);
    var f2 := Run(OPTS, answers, Begin(ROW), 2);
    var s := FirstCopy(ROW, f2, answers[..2], []);
    assert Stuck(s, K) && Configured(CFG, s.table[K].packet);
    assert Reachable(CFG, s, STRICT);
  }

  lemma FirstTwo(answers: seq<Answer>, f: Flight)
    requires 2 <= |answers| <= STAGES
    ensures Run(OPTS, answers, f, 2)
            == StageStep(OPTS, CheckInitialCommitment, answers[1], StageStep(OPTS, CheckRecvDelivery, answers[0], f))
  {
    hide StageStep;
    assert StageAt(0) == CheckRecvDelivery && StageAt(1) == CheckInitialCommitment;
    assert Run(OPTS, answers, f, 0) == f;
    assert Run(OPTS, answers, f, 1) == StageStep(OPTS, CheckRecvDelivery, answers[0], f);
  }

  lemma AckFound(a: Answer)
    requires a == Said(false, Some(TX), None)
    ensures var row := StageStep(OPTS, CheckInitialCommitment, a,
                                 StageStep(OPTS, CheckRecvDelivery, a, Begin(ROW))).row;
            AckAlone(row) && Unfinished(row.status)
  {
    hide Extends, Consistent;
  }

  lemma TimeoutFound(a: Answer)
    requires a == Said(false, None, Some(TX))
    ensures Ending(StageStep(OPTS, CheckInitialCommitment, a, StageStep(OPTS, CheckRecvDelivery, a, Begin(ROW))))
  {
    hide Extends, Consistent;
  }

  /** On its way to being timed out by someone else's timeout tx. */
  predicate Ending(f: Flight) {
    && f.t.packet == ROW.packet && !f.t.errored && f.t.cols.status != FAILED && f.t.cols.timeout == Record(NO_TX, TX)
    && !f.t.HasRecv() && !f.t.HasAck() && !f.t.HasWriteAck()
  }

  function Reply(stage: Stage): Answer { Said(stage.CheckSendFinality?, None, Some(TX)) }

  lemma EndingStep(stage: Stage, f: Flight)
    requires Ending(f) && stage.Position() > 1 && !stage.Finish?
    ensures Ending(StageStep(OPTS, stage, Reply(stage), f))
  {
    hide Extends, Consistent;
  }

  function Replies(n: nat): (answers: seq<Answer>)
    requires n <= STAGES
    ensures |answers| == n
    ensures forall i :: 0 <= i < n ==> answers[i] == Reply(StageAt(i))
  {
    seq(n, i requires 0 <= i < n => Reply(StageAt(i)))
  }

  lemma {:induction false} EndingRun(n: nat)
    requires 2 <= n < STAGES
    ensures Ending(Run(OPTS, Replies(STAGES), Begin(ROW), n))
  {
    hide Extends, Consistent, StageStep;
    var answers, f := Replies(STAGES), Begin(ROW);
    if n == 2 {
      FirstTwo(answers, f);
      TimeoutFound(Said(false, None, Some(TX)));
    } else {
      EndingRun(n - 1);
      EndingStep(StageAt(n - 1), Run(OPTS, answers, f, n - 1));
    }
  }

  /** An error-free pass, past the deadline, over a row as it was inserted. */
  lemma EndsTimedOut()
    ensures Coherent(ROW.cols) && Unfinished(ROW.cols.status)
    ensures forall i :: 0 <= i < STAGES ==>
              ROW.packet.timeoutTimestamp < Replies(STAGES)[i].now <= Replies(STAGES)[i].later
    ensures !Run(OPTS, Replies(STAGES), Begin(ROW), STAGES).t.errored
    ensures Run(OPTS, Replies(STAGES), Begin(ROW), STAGES).row.status == COMPLETE_WITH_TIMEOUT
    ensures Run(OPTS, Replies(STAGES), Begin(ROW), STAGES).t.packet == ROW.packet
  {
    hide Extends, Consistent, Run;
    EndingRun(16);
    var f := Run(OPTS, Replies(STAGES), Begin(ROW), 16);
    assert Run(OPTS, Replies(STAGES), Begin(ROW), STAGES) == StageStep(OPTS, Finish, Reply(Finish), f) by {
      LastStep(Replies(STAGES), Begin(ROW));
    }
  }

  lemma LastStep(answers: seq<Answer>, f: Flight)
    requires |answers| == STAGES
    ensures Run(OPTS, answers, f, STAGES) == StageStep(OPTS, Finish, answers[16], Run(OPTS, answers, f, 16))
  {
    hide StageStep;
  }

  /** Without the discipline a finished transfer can be taken up again: the snapshot was read while the
      transfer was in the pipeline, and is submitted after it has left. */
  lemma StaleSnapshotReopens()
    ensures exists cfg, s, step, k ::
              && Reachable(cfg, s, FREE) && Enabled(cfg, s, step) && k in s.table && k in Apply(cfg, s, step).table
              && !Unfinished(s.table[k].cols.status) && Unfinished(Apply(cfg, s, step).table[k].cols.status)
  {
    hide Reachable, Extends, Consistent, Run;
    var e := Entry(ROW, false);
    StartedAgain(e);
    MovedOn(0, ROW, 0, Replies(STAGES), [e], STAGES, FREE) by { assert InOrder(0, Replies(STAGES)); }
    EndsTimedOut();
    var f := Run(OPTS, Replies(STAGES), Begin(ROW), STAGES);
    assert Replies(STAGES)[..STAGES] == Replies(STAGES);
    PolledAndPushed(f, Replies(STAGES), e);
    var s := Again(f.row);
    var a := Reply(CheckRecvDelivery);
    Reopens(f.row);
    assert Reachable(CFG, s, FREE) && Enabled(CFG, s, Move(1, a)) && K in s.table
           && K in Apply(CFG, s, Move(1, a)).table;
  }

  lemma StartedAgain(e: Entry)
    requires e == Entry(ROW, false)
    ensures Reachable(CFG, FirstCopy(ROW, Begin(ROW), [], [e]), FREE)
  {
    Started(-1);
    var s := FirstCopy(ROW, Begin(ROW), [], []);
    Snapshots(s, ROW);
    assert s.copies[0].t.Key() == K;
    Relaxed(s);
    ReachPlain(CFG, s, Snapshot([K]), FREE);
  }

  /** The row c, and a copy of it as it was at first. */
  function Again(c: Columns): System {
    System(map[K := Row(ROW.packet, c)], map[PIPELINE := Deduper({KEY}, None)],
           map[1 := Copy(ROW, 0, [], Load(ROW), [])], [], 0, 2)
  }

  lemma PolledAndPushed(f: Flight, answers: seq<Answer>, e: Entry)
    requires |answers| == STAGES && f.t.packet == ROW.packet && e == Entry(ROW, false)
    requires Reachable(CFG, FirstCopy(ROW, f, answers, [e]), FREE)
    ensures Reachable(CFG, Again(f.row), FREE)
  {
    hide Reachable;
    var s := FirstCopy(ROW, f, answers, [e]);
    ReachPlain(CFG, s, Poll(0), FREE);
    var s1 := s.(copies := map[], dedupers := map[PIPELINE := Deduper({KEY}, Some(KEY))]);
    assert Apply(CFG, s, Poll(0)) == s1;
    ReachPlain(CFG, s1, Delete(PIPELINE), FREE);
    var s2 := s1.(dedupers := map[PIPELINE := Deduper({}, None)]);
    assert {KEY} - {KEY} == {};
    assert Apply(CFG, s1, Delete(PIPELINE)) == s2;
    ReachPlain(CFG, s2, Push(true), FREE);
    SecondPush(s2, e);
  }

  lemma SecondPush(s: System, e: Entry)
    requires e == Entry(ROW, false) && K in s.table && s.table.Keys == {K} && s.table[K].packet == ROW.packet
    requires s == System(s.table, map[PIPELINE := Deduper({}, None)], map[], [e], 0, 1)
    ensures Apply(CFG, s, Push(true)) == Again(s.table[K].cols)
  {
    assert s.pending[1..] == [];
    assert PipelineOf(ROW.packet) == PIPELINE && TransferKeyOf(Load(ROW)) == KEY;
    assert Accepts(CFG, s);
    var rest := s.(pending := []);
    assert WithPipeline(rest, ROW.packet) == rest;
    assert Apply(CFG, s, Push(true)) == Enter(rest, ROW);
    var key: set<TransferKey> := {} + {KEY};
    assert key == {KEY};
    assert Enter(rest, ROW).dedupers == map[PIPELINE := Deduper({KEY}, None)];
    assert s.table == map[K := Row(ROW.packet, s.table[K].cols)];
  }

  lemma ReopensStage(c: Columns)
    ensures StageStep(OPTS, CheckRecvDelivery, Reply(CheckRecvDelivery), Flight(Load(ROW), c, [])).row.status
            == CHECK_RECV_PACKET_DELIVERY
  {
    hide Extends, Consistent;
  }

  lemma Reopens(c: Columns)
    ensures Enabled(CFG, Again(c), Move(1, Reply(CheckRecvDelivery)))
    ensures K in Apply(CFG, Again(c), Move(1, Reply(CheckRecvDelivery))).table
    ensures Unfinished(Apply(CFG, Again(c), Move(1, Reply(CheckRecvDelivery))).table[K].cols.status)
  {
    hide Extends, Consistent;
    var s, a := Again(c), Reply(CheckRecvDelivery);
    ReopensStage(c);
    hide StageStep;
    assert StageAt(0) == CheckRecvDelivery;
    assert FlightOf(s, s.copies[1]) == Flight(Load(ROW), c, []);
    var g := StageStep(OPTS, CheckRecvDelivery, a, Flight(Load(ROW), c, []));
    assert Apply(CFG, s, Move(1, a)).table == TableAfter(s.table, CheckRecvDelivery, a, Flight(Load(ROW), c, []), g);
  }

  /** The stage takes the transfer up. */
  predicate TakesUp(opts: Options, stage: Stage, a: Answer, t: Transfer) {
    && Built(opts, stage) && Live(t) && Guard(opts, stage, t, a.now)
    && (stage.Batched() ==> Guard(opts, stage, t, a.later))
  }

  /** A finished row is reopened exactly by a stage before the finisher that takes its copy up and saves the
      status, whatever the copy was loaded from. */
  lemma ReopenedExactly(opts: Options, stage: Stage, a: Answer, f: Flight)
    requires !Unfinished(f.row.status) && !stage.Finish?
    ensures Unfinished(StageStep(opts, stage, a, f).row.status) <==> TakesUp(opts, stage, a, f.t) && a.statusSaved
  {
    hide Extends, Consistent, Guard, Batch, Effect, Deliver;
    StagesAreUnfinished(stage);
    if TakesUp(opts, stage, a, f.t) {
      if stage.Batched() {
        BatchRowStatus(opts, stage, a, f);
      } else if a.statusSaved {
        GuardIgnoresStatus(opts, stage, f.t, a.now, stage.Status());
        EffectRowStatus(opts, stage, a, WithStatus(f, stage.Status()));
      }
    }
  }

  lemma StagesAreUnfinished(stage: Stage)
    ensures Unfinished(stage.Status())
  {
  }

  lemma BatchRowStatus(opts: Options, stage: Stage, a: Answer, f: Flight)
    requires stage.Batched() && Admitted(opts, stage, a, f.t)
    ensures BatchStep(opts, stage, a, f).row.status == if a.statusSaved then stage.Status() else f.row.status
  {
    hide Extends, Consistent, Guard;
  }

  lemma EffectRowStatus(opts: Options, stage: Stage, a: Answer, f: Flight)
    requires !stage.Batched() && !stage.Finish? && Guard(opts, stage, f.t, a.now) && f.row.status == stage.Status()
    ensures Effect(opts, stage, a, f).row.status == stage.Status()
  {
    hide Effect, Consistent;
  }

  /** The answer to stage k of a pass in which the deadline, time 0, passes between the two timeout stages. */
  function LateReply(k: nat): Answer {
    var time := if k == 4 then 1 else 0;
    Answer(time, time, true, Some(k != 0), None, None, Unavailable, None, true, None, true)
  }

  const LATE := New(0)

  /** A timeout submitted without the finality of its deadline on the destination being asked for. */
  lemma UnaskedTimeout()
    ensures exists answers: seq<Answer> ::
              && |answers| == 5 && Submitted(DeliverTimeout) in Run(OPTS, answers, Begin(LATE), 5).trace
              && Asked(CheckTimeoutFinality, true) !in Run(OPTS, answers, Begin(LATE), 5).trace
              && (forall i :: 0 < i < 5 ==> answers[i - 1].later <= answers[i].now)
  {
    hide Run, Extends, Consistent, StageStep;
    var answers := seq(5, i requires 0 <= i < 5 => LateReply(i));
    var f := Begin(LATE);
    FirstFive(answers, f);
    var f2 := StageStep(OPTS, CheckInitialCommitment, LateReply(1),
                        StageStep(OPTS, CheckRecvDelivery, LateReply(0), f));
    LateFirstTwo(f2);
    var f3 := StageStep(OPTS, CheckSendFinality, LateReply(2), f2);
    LateThird(f2);
    LateLastTwo(f3);
    assert |answers| == 5;
  }

  predicate LateTrace(f: Flight, trace: seq<Event>) {
    && f.t.packet == LATE.packet && Live(f.t) && f.trace == trace
    && !f.t.HasRecv() && !f.t.HasAck() && !f.t.HasTimeout()
  }

  lemma LateFirstTwo(f: Flight)
    requires f == StageStep(OPTS, CheckInitialCommitment, LateReply(1),
                            StageStep(OPTS, CheckRecvDelivery, LateReply(0), Begin(LATE)))
    ensures LateTrace(f, [Asked(CheckRecvDelivery, false), Asked(CheckInitialCommitment, true)])
  {
    hide Extends, Consistent;
  }

  lemma LateThird(f: Flight)
    requires LateTrace(f, [Asked(CheckRecvDelivery, false), Asked(CheckInitialCommitment, true)])
    ensures LateTrace(StageStep(OPTS, CheckSendFinality, LateReply(2), f),
                      [Asked(CheckRecvDelivery, false), Asked(CheckInitialCommitment, true),
                       Asked(CheckSendFinality, true)])
  {
    hide Extends, Consistent;
  }

  lemma LateLastTwo(f: Flight)
    requires LateTrace(f, [Asked(CheckRecvDelivery, false), Asked(CheckInitialCommitment, true),
                           Asked(CheckSendFinality, true)])
    ensures var g := StageStep(OPTS, DeliverTimeout, LateReply(4),
                               StageStep(OPTS, CheckTimeoutFinality, LateReply(3), f));
            Submitted(DeliverTimeout) in g.trace && Asked(CheckTimeoutFinality, true) !in g.trace
  {
    hide Extends, Consistent;
    assert StageStep(OPTS, CheckTimeoutFinality, LateReply(3), f) == f;
    assert StageStep(OPTS, DeliverTimeout, LateReply(4), f).trace == f.trace + [Submitted(DeliverTimeout)];
  }

  lemma FirstFive(answers: seq<Answer>, f: Flight)
    requires |answers| == 5
    ensures Run(OPTS, answers, f, 5)
            == StageStep(OPTS, DeliverTimeout, answers[4],
                         StageStep(OPTS, CheckTimeoutFinality, answers[3],
                                   StageStep(OPTS, CheckSendFinality, answers[2],
                                             StageStep(OPTS, CheckInitialCommitment, answers[1],
                                                       StageStep(OPTS, CheckRecvDelivery, answers[0], f)))))
  {
    hide StageStep;
    FirstTwo(answers, f);
    assert Run(OPTS, answers, f, 3) == StageStep(OPTS, CheckSendFinality, answers[2], Run(OPTS, answers, f, 2));
    assert Run(OPTS, answers, f, 4) == StageStep(OPTS, CheckTimeoutFinality, answers[3], Run(OPTS, answers, f, 3));
  }

  /** The answers of a pass in which the packet is found received and its write ack successful and final. */
  function GoodReply(stage: Stage): Answer {
    Answer(0, 0, true, Some(!stage.RetryRecv?), Some(TX), None, Decoded(SUCCESS), None, true, None, true)
  }

  function GoodReplies(n: nat): (answers: seq<Answer>)
    requires n <= STAGES
    ensures |answers| == n
    ensures forall i :: 0 <= i < n ==> answers[i] == GoodReply(StageAt(i))
  {
    seq(n, i requires 0 <= i < n => GoodReply(StageAt(i)))
  }

  predicate Received(f: Flight) {
    && f.t.packet == ROW.packet && Live(f.t) && f.t.cols.recv == Record(NO_TX, TX)
    && !f.t.HasAck() && !f.t.HasTimeout() && f.t.cols.writeAck == NO_COLUMNS.writeAck
  }

  lemma ReceivedFirst()
    ensures Received(StageStep(OPTS, CheckRecvDelivery, GoodReply(CheckRecvDelivery), Begin(ROW)))
  {
    hide Extends, Consistent;
  }

  lemma ReceivedStep(stage: Stage, f: Flight)
    requires Received(f) && 0 < stage.Position() < 10
    ensures Received(StageStep(OPTS, stage, GoodReply(stage), f))
  {
    hide Extends, Consistent;
  }

  lemma {:induction false} ReceivedRun(n: nat)
    requires 1 <= n <= 10
    ensures Received(Run(OPTS, GoodReplies(12), Begin(ROW), n))
  {
    hide Extends, Consistent, StageStep, GoodReply, Received;
    var answers, f := GoodReplies(12), Begin(ROW);
    if n == 1 {
      ReceivedFirst();
      assert StageAt(0) == CheckRecvDelivery && Run(OPTS, answers, f, 0) == f;
    } else {
      ReceivedRun(n - 1);
      ReceivedStep(StageAt(n - 1), Run(OPTS, answers, f, n - 1));
    }
  }

  lemma GatePassedInMemory(f: Flight)
    requires Received(f)
    ensures var g := StageStep(OPTS, CheckWriteAckFinality, GoodReply(CheckWriteAckFinality),
                               StageStep(OPTS, WaitForWriteAck, GoodReply(WaitForWriteAck), f));
            g.t.cols.writeAck.finalizedTime.Some? && !g.t.errored
  {
    hide Extends, Consistent;
  }

  /** A disciplined run in which a copy without an error holds the finalized time that its row does not. */
  lemma FinalizedTimeLost()
    ensures exists cfg, s, id ::
              && Reachable(cfg, s, STRICT) && id in s.copies && s.copies[id].t.Key() in s.table
              && !s.copies[id].t.errored && s.copies[id].t.cols.writeAck.finalizedTime.Some?
              && s.table[s.copies[id].t.Key()].cols.writeAck.finalizedTime.None?
  {
    hide Reachable, Extends, Consistent, StageStep, Run, GoodReply, FinalizedTime.PassedGate;
    var answers, f := GoodReplies(12), Begin(ROW);
    Started(-1);
    GoodTimes();
    MovedOn(0, ROW, 0, answers, [], 12, STRICT);
    ReceivedRun(10);
    GatePassedInMemory(Run(OPTS, answers, f, 10));
    LastTwo(answers, f);
    AbsentEarlier(OPTS, answers, f, 12, 12);
    var s := FirstCopy(ROW, Run(OPTS, answers, f, 12), answers[..12], []);
    assert Reachable(CFG, s, STRICT) && 0 in s.copies;
    NeverInTable(CFG, s, K);
    assert s.copies[0].t == Run(OPTS, answers, f, 12).t && s.copies[0].t.Key() == K;
    assert !s.copies[0].t.errored && s.copies[0].t.cols.writeAck.finalizedTime.Some?;
    assert s.table[s.copies[0].t.Key()].cols.writeAck.finalizedTime.None?;
  }

  lemma GoodTimes()
    ensures InOrder(0, GoodReplies(12)) && ClockAfter(0, GoodReplies(12), 12) == 0
  {
  }

  lemma LastTwo(answers: seq<Answer>, f: Flight)
    requires |answers| == 12
    ensures Run(OPTS, answers, f, 12)
            == StageStep(OPTS, CheckWriteAckFinality, answers[11],
                         StageStep(OPTS, WaitForWriteAck, answers[10], Run(OPTS, answers, f, 10)))
  {
    assert StageAt(10) == WaitForWriteAck && StageAt(11) == CheckWriteAckFinality;
    hide StageStep, StageAt;
    assert Run(OPTS, answers, f, 11) == StageStep(OPTS, WaitForWriteAck, answers[10], Run(OPTS, answers, f, 10));
  }

  lemma NeverInTable(cfg: Config, s: System, k: RowKey)
    requires Reachable(cfg, s, STRICT) && k in s.table
    ensures s.table[k].cols.writeAck.finalizedTime.None?
  {
    hide Enabled, Apply, Disciplined, Doubles;
    var ss, steps :| OfKind(cfg, ss, steps, STRICT) && ss[|steps|] == s;
    FinalizedTime.FinalizedTimeIsNeverStored(cfg, ss, steps, |steps|);
  }
}
