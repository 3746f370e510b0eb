/** A disciplined run in which a transfer takes two error-free passes: its deadline passes during the first,
    after the timeout stage and before the recv stage, and the second finds it timed out. */
module TwoPasses {
  import opened Transfers
  import opened Stages
  import opened Pass
  import opened Dispatch
  import opened Runs
  import opened Lifecycle
  import opened Witnesses

  /** No hash is recorded. */
  predicate Bare(c: Columns) {
    c.recv.hash.None? && c.writeAck.hash.None? && c.ack.hash.None? && c.timeout.hash.None?
  }

  predicate StillOpen(f: Flight) {
    && f.t.packet == LATE.packet && Live(f.t) && Bare(f.t.cols)
    && Unfinished(f.row.status) && Unfinished(f.t.cols.status)
  }

  /** The answers of the first pass: not received, committed, final; the deadline, time 0, passes before the
      recv stage. */
  function FirstReply(k: nat): Answer {
    var time := if k < DeliverRecv.Position() then 0 else 1;
    Answer(time, time, true, Some(k != 0), None, None, Unavailable, None, true, None, true)
  }

  function FirstReplies(): (answers: seq<Answer>)
    ensures |answers| == STAGES
    ensures forall i :: 0 <= i < STAGES ==> answers[i] == FirstReply(i)
  {
    seq(STAGES, i requires 0 <= i < STAGES => FirstReply(i))
  }

  lemma OpenStep(k: nat, f: Flight)
    requires k < STAGES && StillOpen(f)
    ensures StillOpen(StageStep(OPTS, StageAt(k), FirstReply(k), f))
  {
    hide Extends, Consistent;
  }

  lemma {:induction false} OpenRun(n: nat)
    requires n <= STAGES
    ensures StillOpen(Run(OPTS, FirstReplies(), Begin(LATE), n))
  {
    hide StageStep, StageAt, FirstReply, StillOpen;
    RunNext(FirstReplies(), Begin(LATE), n);
    if n == 0 {
      assert StillOpen(Begin(LATE)) by { BeginsOpen(); }
    } else {
      OpenRun(n - 1);
      OpenStep(n - 1, Run(OPTS, FirstReplies(), Begin(LATE), n - 1));
    }
  }

  lemma BeginsOpen()
    ensures StillOpen(Begin(LATE)) && Consistent(Begin(LATE))
  {
  }

  /** The row after the first pass. */
  function Left(): Row { Row(LATE.packet, Run(OPTS, FirstReplies(), Begin(LATE), STAGES).row) }

  /** The system after the first pass. */
  function Halfway(): System {
    One(0, LATE, 0, Run(OPTS, FirstReplies(), Begin(LATE), STAGES), FirstReplies(), [], 1)
  }

  lemma LeftIsBare()
    ensures Bare(Left().cols) && Unfinished(Left().cols.status) && Coherent(Left().cols)
  {
    hide Run, Extends, Coherent;
    OpenRun(STAGES);
    BeginsOpen();
    AlwaysConsistent(OPTS, FirstReplies(), Begin(LATE), STAGES);
  }

  const AGAIN := STRICT.(through := Some(Halfway()))

  lemma FirstPass()
    ensures Reachable(CFG, Halfway(), AGAIN)
  {
    hide Reachable, Run, One;
    Started(0);
    assert InOrder(0, FirstReplies()) && ClockAfter(0, FirstReplies(), STAGES) == 1;
    MovedOn(0, LATE, 0, FirstReplies(), [], STAGES, STRICT);
    assert FirstReplies()[..STAGES] == FirstReplies();
    ComesThrough(Halfway(), STRICT);
  }

  /** The first copy leaves, and the next snapshot brings the row in again. */
  lemma PushedAgain()
    ensures Reachable(CFG, One(1, Left(), 1, Begin(Left()), [], [], 1), AGAIN)
  {
    hide Reachable, Run, Disciplined, AGAIN;
    FirstPass();
    OpenRun(STAGES);
    LeftIsBare();
    var s := Halfway();
    assert PipelineOf(LATE.packet) == PIPELINE && TransferKeyOf(s.copies[0].t) == KEY;
    PolledAndDeleted(CFG, s, 0);
    Undemanding(s, Poll(0));
    ReachPlain(CFG, s, Poll(0), AGAIN);
    var s1 := Apply(CFG, s, Poll(0));
    Undemanding(s1, Delete(PIPELINE));
    ReachPlain(CFG, s1, Delete(PIPELINE), AGAIN);
    var s2 := Emptied();
    assert Apply(CFG, s1, Delete(PIPELINE)) == s2 by { EmptiedOut(s); }
    Snapshots(s2, Left());
    Undemanding(s2, Snapshot([K]));
    ReachPlain(CFG, s2, Snapshot([K]), AGAIN);
    var s3 := s2.(pending := [Entry(Left(), true)]);
    assert !InFlight(s2, K);
    IdlePush(s3);
    ReachPlain(CFG, s3, Push(true), AGAIN);
    LastPush(Left(), s3);
  }

  function Emptied(): System {
    System(map[K := Left()], map[PIPELINE := Deduper({}, None)], map[], [], 1, 1)
  }

  lemma EmptiedOut(s: System)
    requires s == Halfway()
    ensures s.(copies := s.copies - {0}, dedupers := s.dedupers[PIPELINE := Deduper({KEY} - {KEY}, None)]) == Emptied()
  {
    hide Run;
    var none, marked := Deduper({KEY} - {KEY}, None), Deduper({KEY}, None);
    assert none == Deduper({}, None);
    assert map[PIPELINE := marked][PIPELINE := none] == map[PIPELINE := none];
    assert s.copies - {0} == map[];
  }

  lemma LastPush(row: Row, s: System)
    requires row.packet == LATE.packet
    requires s == System(map[K := row], map[PIPELINE := Deduper({}, None)], map[], [Entry(row, true)], 1, 1)
    ensures Apply(CFG, s, Push(true)) == One(1, row, 1, Begin(row), [], [], 1)
  {
    assert s.pending[1..] == [];
    assert PipelineOf(row.packet) == PIPELINE && TransferKeyOf(Load(row)) == KEY;
    assert Accepts(CFG, s);
    var rest := s.(pending := []);
    assert WithPipeline(rest, row.packet) == rest;
    assert Apply(CFG, s, Push(true)) == Enter(rest, row);
    var key: set<TransferKey> := {} + {KEY};
    assert key == {KEY};
    var none, marked := Deduper({}, None), Deduper({KEY}, None);
    assert map[PIPELINE := none][PIPELINE := marked] == map[PIPELINE := marked];
    assert Enter(rest, row).dedupers == map[PIPELINE := marked];
  }

  /** The answers of the second pass, at time 1: the source chain has a timeout tx for the packet. */
  function SecondReply(stage: Stage): Answer { Reply(stage).(now := 1, later := 1) }

  function SecondReplies(): (answers: seq<Answer>)
    ensures |answers| == STAGES
    ensures forall i :: 0 <= i < STAGES ==> answers[i] == SecondReply(StageAt(i))
  {
    seq(STAGES, i requires 0 <= i < STAGES => SecondReply(StageAt(i)))
  }

  predicate TimedOut(f: Flight) {
    && f.t.packet == LATE.packet && Live(f.t) && f.t.HasTimeout() && f.t.cols.timeout.time.Some?
    && !f.t.HasRecv() && !f.t.HasWriteAck() && !f.t.HasAck()
  }

  lemma SecondFirst(f: Flight)
    requires StillOpen(f)
    ensures StillOpen(StageStep(OPTS, CheckRecvDelivery, SecondReply(CheckRecvDelivery), f))
  {
    hide Extends, Consistent;
  }

  lemma SecondSecond(f: Flight)
    requires StillOpen(f)
    ensures TimedOut(StageStep(OPTS, CheckInitialCommitment, SecondReply(CheckInitialCommitment), f))
  {
    hide Extends, Consistent;
  }

  lemma TimedOutStep(stage: Stage, f: Flight)
    requires TimedOut(f) && stage.Position() > 1 && !stage.Finish?
    ensures TimedOut(StageStep(OPTS, stage, SecondReply(stage), f))
  {
    hide Extends, Consistent;
  }

  lemma {:induction false} TimedOutRun(n: nat)
    requires 2 <= n < STAGES
    ensures TimedOut(Run(OPTS, SecondReplies(), Begin(Left()), n))
  {
    hide StageStep, SecondReply, TimedOut, StillOpen, Run, Left;
    var answers, f := SecondReplies(), Begin(Left());
    if n == 2 {
      assert StillOpen(f) by { BeginsAgain(); }
      FirstTwo(answers, f);
      assert StageAt(0) == CheckRecvDelivery && StageAt(1) == CheckInitialCommitment;
      SecondFirst(f);
      SecondSecond(StageStep(OPTS, CheckRecvDelivery, SecondReply(CheckRecvDelivery), f));
    } else {
      TimedOutRun(n - 1);
      RunNext(answers, f, n);
      TimedOutStep(StageAt(n - 1), Run(OPTS, answers, f, n - 1));
    }
  }

  lemma BeginsAgain()
    ensures StillOpen(Begin(Left()))
  {
    hide Run, Left;
    LeftIsBare();
    assert Left().packet == LATE.packet by { LeftPacket(); }
  }

  lemma LeftPacket()
    ensures Left().packet == LATE.packet
  {
    hide Run;
  }

  lemma Finishes(f: Flight)
    requires TimedOut(f)
    ensures var g := StageStep(OPTS, Finish, SecondReply(Finish), f);
            !g.t.errored && g.t.packet == f.t.packet && g.row.status == COMPLETE_WITH_TIMEOUT
  {
    hide Extends, Consistent;
  }

  /** The conditions of `SecondPass` are met: the run goes through a state in which the first copy has left its row
      unfinished, and ends with the second copy, pushed later, through without an error and its row terminal. */
  lemma SecondPassHappens()
    ensures exists cfg, ss: seq<System>, steps, m: nat, i, j ::
              && DisciplinedRun(cfg, ss, steps) && m <= |steps| < |ss|
              && InTwoPasses(ss[m], i, ss[|steps|], j) && Ended(ss[|steps|], j)
  {
    hide Reachable, AGAIN, Left, SecondReplies;
    var f := SecondEnd();
    Conclude(One(1, Left(), 1, f, SecondReplies(), [], 1));
  }

  /** The copy after the second pass. */
  lemma SecondEnd() returns (g: Flight)
    ensures Reachable(CFG, One(1, Left(), 1, g, SecondReplies(), [], 1), AGAIN)
    ensures !g.t.errored && g.t.packet == LATE.packet && g.row.status == COMPLETE_WITH_TIMEOUT
  {
    hide Reachable, Run, StageStep, SecondReply, AGAIN, Left, One, TimedOut;
    PushedAgain();
    LeftPacket();
    var answers, f := SecondReplies(), Begin(Left());
    assert InOrder(1, answers) && ClockAfter(1, answers, STAGES) == 1 by { SecondTimes(); }
    MovedOn(1, Left(), 1, answers, [], STAGES, AGAIN);
    assert answers[..STAGES] == answers;
    TimedOutRun(16);
    Finishes(Run(OPTS, answers, f, 16));
    LastStep(answers, f);
    TimedOutPacket(Run(OPTS, answers, f, 16));
    g := Run(OPTS, answers, f, STAGES);
  }

  predicate Ended(s: System, id: nat) {
    && id in s.copies && s.copies[id].t.Key() in s.table
    && s.table[s.copies[id].t.Key()].cols.status == COMPLETE_WITH_TIMEOUT
  }

  lemma TimedOutPacket(f: Flight)
    requires TimedOut(f)
    ensures f.t.packet == LATE.packet
  {
  }

  lemma SecondTimes()
    ensures InOrder(1, SecondReplies()) && ClockAfter(1, SecondReplies(), STAGES) == 1
  {
  }

  lemma Conclude(s: System)
    requires Reachable(CFG, s, AGAIN) && Through(s, 1) && s.copies[1].t.packet == LATE.packet && Ended(s, 1)
    ensures exists cfg, ss: seq<System>, steps, m: nat, i, j ::
              && DisciplinedRun(cfg, ss, steps) && m <= |steps| < |ss|
              && InTwoPasses(ss[m], i, ss[|steps|], j) && Ended(ss[|steps|], j)
  {
    hide DisciplinedRun, IsRun, Run, Doublings;
    var ss: seq<System>, steps :| OfKind(CFG, ss, steps, AGAIN) && ss[|steps|] == s;
    var m: nat :| m < |ss| && ss[m] == Halfway();
    OpenRun(STAGES);
    assert InTwoPasses(ss[m], 0, ss[|steps|], 1);
    assert DisciplinedRun(CFG, ss, steps) && m <= |steps| < |ss|;
  }
}
