/** One pass of one transfer through the pipeline, for every sequence of answers. */
module Pass {
  import opened Transfers
  import opened Stages

  /** The flight after the first n stages. */
  function Run(opts: Options, answers: seq<Answer>, f: Flight, n: nat): Flight
    requires n <= |answers| <= STAGES
  {
    if n == 0 then f
    else StageStep(opts, StageAt(n - 1), answers[n - 1], Run(opts, answers, f, n - 1))
  }

  /** Still taken up by the middleware: neither errored nor marked FAILED. */
  predicate Live(t: Transfer) { !t.errored && t.cols.status != FAILED }

  /** How a later point of a pass relates to an earlier one. */
  predicate Follows(early: Flight, late: Flight) {
    && late.t.packet == early.t.packet
    && Keeps(early.t.cols, late.t.cols)
    && early.trace <= late.trace
    && (early.t.errored ==> late == early)
  }

  lemma FollowsStep(stage: Stage, early: Flight, prev: Flight, late: Flight)
    requires Follows(early, prev) && Extends(stage, prev, late) && (prev.t.errored ==> late == prev)
    ensures Follows(early, late)
  {
  }

  lemma {:induction false} Earlier(opts: Options, answers: seq<Answer>, f: Flight, k: nat, n: nat)
    requires k <= n <= |answers| <= STAGES
    ensures Follows(Run(opts, answers, f, k), Run(opts, answers, f, n))
  {
    hide StageStep, StageAt, Consistent, Extends;
    if k < n {
      Earlier(opts, answers, f, k, n - 1);
      FollowsStep(StageAt(n - 1), Run(opts, answers, f, k), Run(opts, answers, f, n - 1), Run(opts, answers, f, n));
    }
  }

  /** A transfer live late in the pass was live all along. */
  lemma {:induction false} LiveEarlier(opts: Options, answers: seq<Answer>, f: Flight, k: nat, n: nat)
    requires k <= n <= |answers| <= STAGES && n < STAGES
    requires Live(Run(opts, answers, f, n).t)
    ensures Live(Run(opts, answers, f, k).t)
  {
    hide StageStep, StageAt, Consistent;
    if k < n {
      assert !StageAt(n - 1).Finish?;
      LiveEarlier(opts, answers, f, k, n - 1);
    }
  }

  /** The last stage that looks for a recv is stage 7, for a write ack stage 10, for an ack or a
      timeout stage 13; from there on the in-memory columns stay. */
  predicate SameFrom(k: nat, c: Columns, d: Columns) {
    && (k >= 8 ==> d.recv == c.recv)
    && (k >= 11 ==> d.writeAck.hash == c.writeAck.hash && d.writeAck.status == c.writeAck.status)
    && (k >= 14 ==> d.ack == c.ack && d.timeout == c.timeout)
  }

  lemma LateStage(stage: Stage, f: Flight, g: Flight)
    requires Extends(stage, f, g)
    ensures SameFrom(stage.Position(), f.t.cols, g.t.cols)
  {
  }

  lemma {:induction false} Settled(opts: Options, answers: seq<Answer>, f: Flight, k: nat, n: nat)
    requires k <= n <= |answers| <= STAGES
    ensures SameFrom(k, Run(opts, answers, f, k).t.cols, Run(opts, answers, f, n).t.cols)
  {
    hide StageStep, StageAt, Consistent, Extends, Stage.Position;
    if k < n {
      Settled(opts, answers, f, k, n - 1);
      LateStage(StageAt(n - 1), Run(opts, answers, f, n - 1), Run(opts, answers, f, n));
    }
  }

  lemma TraceStep(stage: Stage, f: Flight, g: Flight)
    requires Extends(stage, f, g)
    ensures g.trace == f.trace || AddsEvent(stage, f.trace, g.trace)
  {
  }

  /** Every event of a pass was added by the stage it names, on top of all that came before it. */
  lemma {:induction false} Origin(opts: Options, answers: seq<Answer>, f: Flight, n: nat, i: nat) returns (k: nat)
    requires n <= |answers| <= STAGES && f.trace == [] && i < |Run(opts, answers, f, n).trace|
    ensures k < n
    ensures Run(opts, answers, f, k).trace == Run(opts, answers, f, n).trace[..i]
    ensures Run(opts, answers, f, n).trace[i].stage == StageAt(k)
    ensures Run(opts, answers, f, k + 1).trace == Run(opts, answers, f, n).trace[..i + 1]
  {
    hide StageStep, StageAt, Consistent, Extends;
    TraceStep(StageAt(n - 1), Run(opts, answers, f, n - 1), Run(opts, answers, f, n));
    if i < |Run(opts, answers, f, n - 1).trace| {
      k := Origin(opts, answers, f, n - 1, i);
    } else {
      k := n - 1;
    }
  }

  /** The stages that ask a chain a question whose answer decides whether the transfer may go on. */
  predicate Gate(stage: Stage) {
    || stage.CheckRecvDelivery? || stage.ChecksCommitment() || stage.CheckSendFinality?
    || stage.CheckTimeoutFinality? || stage.CheckWriteAckFinality?
  }

  /** The answer after which the transfer goes on with the hashes it had: not received, still
      committed, finalized. */
  predicate GoAhead(stage: Stage) { !stage.CheckRecvDelivery? }

  /** A gate does one of four things. */
  lemma GateStep(opts: Options, stage: Stage, a: Answer, f: Flight)
    requires Gate(stage)
    ensures var g := StageStep(opts, stage, a, f);
      || !Live(f.t) || !Guard(opts, stage, f.t, a.now)
      || g.t.errored
      || (stage.CheckRecvDelivery? && g.t.HasRecv())
      || (stage.ChecksCommitment() && (g.t.HasAck() || g.t.HasTimeout()))
      || g.trace == f.trace + [Asked(stage, GoAhead(stage))]
  {
    hide Consistent, Extends, BatchStep, FinishStep;
  }

  /** A gate whose guard held, and after which the transfer is still live without the hashes the
      gate looks for, was asked and gave the go-ahead. */
  lemma GatePassed(opts: Options, answers: seq<Answer>, f: Flight, k: nat, n: nat)
    requires k < n <= |answers| <= STAGES && n < STAGES && Gate(StageAt(k))
    requires Live(Run(opts, answers, f, n).t)
    requires Guard(opts, StageAt(k), Run(opts, answers, f, k).t, answers[k].now)
    requires StageAt(k).CheckRecvDelivery? ==> !Run(opts, answers, f, n).t.HasRecv()
    requires StageAt(k).ChecksCommitment() ==>
               !Run(opts, answers, f, n).t.HasAck() && !Run(opts, answers, f, n).t.HasTimeout()
    ensures Asked(StageAt(k), GoAhead(StageAt(k))) in Run(opts, answers, f, n).trace
  {
    hide StageStep, StageAt, Guard, Consistent, Extends, Keeps;
    LiveEarlier(opts, answers, f, k, n);
    LiveEarlier(opts, answers, f, k + 1, n);
    Earlier(opts, answers, f, k + 1, n);
    AbsentEarlier(opts, answers, f, k + 1, n);
    GateStep(opts, StageAt(k), answers[k], Run(opts, answers, f, k));
    var e := Asked(StageAt(k), GoAhead(StageAt(k)));
    assert Run(opts, answers, f, k + 1).trace == Run(opts, answers, f, k).trace + [e];
    assert e in Run(opts, answers, f, k + 1).trace;
  }

  lemma SubmitStep(opts: Options, stage: Stage, a: Answer, f: Flight)
    requires StageStep(opts, stage, a, f).trace == f.trace + [Submitted(stage)]
    ensures stage.Batched() && Admitted(opts, stage, a, f.t)
  {
    hide SingleStep, FinishStep, Consistent;
  }

  /** A submission happens at its own stage, to a transfer that both looks at the guard let through. */
  lemma SubmittedAt(opts: Options, answers: seq<Answer>, f: Flight, n: nat, i: nat, stage: Stage)
    requires n <= |answers| <= STAGES && f.trace == []
    requires i < |Run(opts, answers, f, n).trace| && Run(opts, answers, f, n).trace[i] == Submitted(stage)
    ensures stage.Position() < n && stage.Batched() && StageAt(stage.Position()) == stage
    ensures Run(opts, answers, f, stage.Position()).trace == Run(opts, answers, f, n).trace[..i]
    ensures Admitted(opts, stage, answers[stage.Position()], Run(opts, answers, f, stage.Position()).t)
  {
    hide StageStep, StageAt, Admitted, Consistent;
    var k := Origin(opts, answers, f, n, i);
    var all := Run(opts, answers, f, n).trace;
    assert all[..i + 1] == all[..i] + [all[i]];
    SubmitStep(opts, stage, answers[k], Run(opts, answers, f, k));
  }

  /** A gate that was skipped left no answer behind. */
  lemma SkippedGate(opts: Options, answers: seq<Answer>, f: Flight, k: nat, n: nat, b: bool)
    requires k < n <= |answers| <= STAGES && f.trace == [] && Gate(StageAt(k))
    requires !Guard(opts, StageAt(k), Run(opts, answers, f, k).t, answers[k].now)
    ensures Asked(StageAt(k), b) !in Run(opts, answers, f, n).trace
  {
    hide StageAt, StageStep, Guard, Consistent, Extends;
    SkippedStep(opts, StageAt(k), answers[k], Run(opts, answers, f, k));
    var all := Run(opts, answers, f, n).trace;
    forall i | 0 <= i < |all| ensures all[i] != Asked(StageAt(k), b) {
      var j := Origin(opts, answers, f, n, i);
      assert |Run(opts, answers, f, j).trace| != |Run(opts, answers, f, j + 1).trace|;
      assert j != k;
    }
  }

  lemma SkippedStep(opts: Options, stage: Stage, a: Answer, f: Flight)
    requires Gate(stage) && !Guard(opts, stage, f.t, a.now)
    ensures StageStep(opts, stage, a, f) == f
  {
    hide Guard, Consistent, Extends;
  }

  /** A hash that is absent late in the pass was absent all along. */
  lemma AbsentEarlier(opts: Options, answers: seq<Answer>, f: Flight, k: nat, n: nat)
    requires k <= n <= |answers| <= STAGES
    ensures var t, u := Run(opts, answers, f, k).t, Run(opts, answers, f, n).t;
            && t.packet == f.t.packet == u.packet
            && (!u.HasRecv() ==> !t.HasRecv()) && (!u.HasAck() ==> !t.HasAck()) && (!u.HasTimeout() ==> !t.HasTimeout())
  {
    hide StageStep, StageAt, Consistent, Extends;
    Earlier(opts, answers, f, 0, k);
    Earlier(opts, answers, f, k, n);
  }

  /** What the gates before the timeout stage have said of a transfer that it admits. */
  lemma GatesBeforeTimeout(opts: Options, answers: seq<Answer>, f: Flight)
    requires 4 < |answers| <= STAGES && f.trace == []
             && Admitted(opts, DeliverTimeout, answers[4], Run(opts, answers, f, 4).t)
    ensures Asked(CheckRecvDelivery, false) in Run(opts, answers, f, 4).trace
    ensures Asked(CheckInitialCommitment, true) in Run(opts, answers, f, 4).trace
    ensures Asked(CheckSendFinality, true) in Run(opts, answers, f, 4).trace
    ensures Asked(CheckTimeoutFinality, true) in Run(opts, answers, f, 4).trace <==> f.t.IsTimedOut(answers[3].now)
  {
    hide StageStep, Run, StageAt, Consistent, Extends;
    assert StageAt(0) == CheckRecvDelivery && StageAt(1) == CheckInitialCommitment;
    assert StageAt(2) == CheckSendFinality && StageAt(3) == CheckTimeoutFinality;
    AbsentEarlier(opts, answers, f, 0, 4);
    AbsentEarlier(opts, answers, f, 1, 4);
    AbsentEarlier(opts, answers, f, 2, 4);
    AbsentEarlier(opts, answers, f, 3, 4);
    GatePassed(opts, answers, f, 0, 4);
    GatePassed(opts, answers, f, 1, 4);
    GatePassed(opts, answers, f, 2, 4);
    if f.t.IsTimedOut(answers[3].now) {
      GatePassed(opts, answers, f, 3, 4);
    } else {
      SkippedGate(opts, answers, f, 3, 4, true);
    }
  }

  /** A transfer joins a timeout submission only after, in this same pass, its receipt was found
      missing, its commitment found present and its send found final. The finality of the deadline
      on the destination was established exactly when the deadline had passed at that gate. */
  lemma TimeoutSubmission(opts: Options, answers: seq<Answer>, f: Flight, n: nat, i: nat)
    requires n <= |answers| <= STAGES && f.trace == []
    requires i < |Run(opts, answers, f, n).trace| && Run(opts, answers, f, n).trace[i] == Submitted(DeliverTimeout)
    ensures Asked(CheckRecvDelivery, false) in Run(opts, answers, f, n).trace[..i]
    ensures Asked(CheckInitialCommitment, true) in Run(opts, answers, f, n).trace[..i]
    ensures Asked(CheckSendFinality, true) in Run(opts, answers, f, n).trace[..i]
    ensures n > 4
    ensures Asked(CheckTimeoutFinality, true) in Run(opts, answers, f, n).trace[..i]
            <==> f.t.IsTimedOut(answers[3].now)
  {
    hide StageStep, Run, StageAt, Consistent, Extends, Admitted;
    SubmittedAt(opts, answers, f, n, i, DeliverTimeout);
    GatesBeforeTimeout(opts, answers, f);
  }

  /** A transfer joins a recv submission only after its send was found final in this same pass. */
  lemma RecvSubmission(opts: Options, answers: seq<Answer>, f: Flight, n: nat, i: nat)
    requires n <= |answers| <= STAGES && f.trace == []
    requires i < |Run(opts, answers, f, n).trace| && Run(opts, answers, f, n).trace[i] == Submitted(DeliverRecv)
    ensures Asked(CheckSendFinality, true) in Run(opts, answers, f, n).trace[..i]
    ensures n > 7 && !f.t.IsTimedOut(answers[7].now) && !f.t.IsTimedOut(answers[7].later)
  {
    hide StageStep, Run, StageAt, Consistent, Extends;
    SubmittedAt(opts, answers, f, n, i, DeliverRecv);
    assert StageAt(2) == CheckSendFinality;
    AbsentEarlier(opts, answers, f, 2, 7);
    GatePassed(opts, answers, f, 2, 7);
  }

  /** Acks of this kind are relayed: success acks under one option, error and unknown acks under the other. */
  predicate RelaysKind(opts: Options, s: WriteAckStatus) {
    (s == SUCCESS && opts.relaySuccessAcks) || ((s == ERROR || s == UNKNOWN) && opts.relayErrorAcks)
  }

  /** A transfer joins an ack submission only if acks of its kind are relayed and, in this same
      pass, its write ack was found final and then its commitment found present. */
  lemma AckSubmission(opts: Options, answers: seq<Answer>, f: Flight, n: nat, i: nat)
    requires n <= |answers| <= STAGES && f.trace == []
    requires i < |Run(opts, answers, f, n).trace| && Run(opts, answers, f, n).trace[i] == Submitted(DeliverAck)
    ensures Asked(CheckWriteAckFinality, true) in Run(opts, answers, f, n).trace[..i]
    ensures Asked(CheckPostReceiveCommitment, true) in Run(opts, answers, f, n).trace[..i]
    ensures n > 13
    ensures var c := Run(opts, answers, f, n).t.cols;
      c.writeAck.hash.Some? && c.writeAck.status.Some? && RelaysKind(opts, c.writeAck.status.value)
  {
    hide StageStep, Consistent, Extends;
    SubmittedAt(opts, answers, f, n, i, DeliverAck);
    Earlier(opts, answers, f, 13, n);
    Earlier(opts, answers, f, 12, 13);
    LiveEarlier(opts, answers, f, 12, 13);
    LiveEarlier(opts, answers, f, 11, 13);
    Settled(opts, answers, f, 11, 13);
    GatePassed(opts, answers, f, 11, 13);
    GatePassed(opts, answers, f, 12, 13);
  }

  /** A row as the dispatcher loads it. */
  function Begin(row: Row): Flight { Flight(Load(row), row.cols, []) }

  /** At every point of every pass over a coherent row, whatever fails: the row is coherent, and a
      transfer without an error agrees with it. */
  lemma {:induction false} AlwaysConsistent(opts: Options, answers: seq<Answer>, f: Flight, n: nat)
    requires n <= |answers| <= STAGES && Consistent(f)
    ensures Consistent(Run(opts, answers, f, n))
  {
    hide StageStep, StageAt, Consistent, Extends;
    if n > 0 {
      AlwaysConsistent(opts, answers, f, n - 1);
    }
  }

  lemma StatusStep(stage: Stage, f: Flight, g: Flight)
    requires Extends(stage, f, g) && !stage.Finish?
    ensures Unfinished(f.row.status) ==> Unfinished(g.row.status)
    ensures Unfinished(f.t.cols.status) ==> Unfinished(g.t.cols.status)
  {
  }

  /** Until the finisher, a pass leaves an unfinished row unfinished. */
  lemma {:induction false} UnfinishedUntilFinish(opts: Options, answers: seq<Answer>, f: Flight, n: nat)
    requires n <= |answers| <= STAGES && n < STAGES
    requires Unfinished(f.row.status) && Unfinished(f.t.cols.status)
    ensures Unfinished(Run(opts, answers, f, n).row.status) && Unfinished(Run(opts, answers, f, n).t.cols.status)
  {
    hide StageStep, StageAt, Consistent, Extends, Unfinished;
    if n > 0 {
      UnfinishedUntilFinish(opts, answers, f, n - 1);
      StatusStep(StageAt(n - 1), Run(opts, answers, f, n - 1), Run(opts, answers, f, n));
    }
  }

  /** A pass that ends without an error was live at every stage. */
  lemma ErrorFree(opts: Options, answers: seq<Answer>, f: Flight, k: nat)
    requires k < STAGES == |answers| && Unfinished(f.row.status) && Unfinished(f.t.cols.status)
    requires !Run(opts, answers, f, STAGES).t.errored
    ensures Live(Run(opts, answers, f, k).t)
  {
    hide StageStep, StageAt, Consistent, Extends;
    UnfinishedUntilFinish(opts, answers, f, k);
    Earlier(opts, answers, f, k, STAGES);
  }

  lemma AllLive(opts: Options, answers: seq<Answer>, f: Flight)
    requires |answers| == STAGES && Unfinished(f.row.status) && Unfinished(f.t.cols.status)
    requires !Run(opts, answers, f, STAGES).t.errored
    ensures forall k: nat :: k < STAGES ==> Live(Run(opts, answers, f, k).t)
  {
    forall k: nat | k < STAGES ensures Live(Run(opts, answers, f, k).t) {
      ErrorFree(opts, answers, f, k);
    }
  }

  lemma DeliverRecvStage(opts: Options, a: Answer, f: Flight)
    requires Live(f.t) && !StageStep(opts, DeliverRecv, a, f).t.errored
    ensures StageStep(opts, DeliverRecv, a, f).t.HasRecv() || f.t.IsTimedOut(a.now) || f.t.IsTimedOut(a.later)
  {
    hide Consistent, Extends, SingleStep, FinishStep;
  }

  lemma WaitForWriteAckStage(opts: Options, a: Answer, f: Flight)
    requires Live(f.t) && !StageStep(opts, WaitForWriteAck, a, f).t.errored
    ensures f.t.HasRecv() && !f.t.HasTimeout() ==> StageStep(opts, WaitForWriteAck, a, f).t.HasWriteAck()
  {
    hide Consistent, Extends, BatchStep, FinishStep;
  }

  lemma DeliverAckStage(opts: Options, a: Answer, f: Flight)
    requires Live(f.t) && !StageStep(opts, DeliverAck, a, f).t.errored
    requires f.t.HasWriteAck() && f.t.cols.writeAck.status.Some? && opts.Relays(f.t.cols.writeAck.status.value)
    ensures var t := StageStep(opts, DeliverAck, a, f).t; t.HasAck() || t.HasTimeout()
  {
    hide Consistent, Extends, SingleStep, FinishStep;
  }

  /** What the finisher does to an unerrored, unfinished transfer that agrees with its row. */
  lemma FinishStage(opts: Options, a: Answer, f: Flight)
    requires Live(f.t) && Unfinished(f.row.status) && Consistent(f)
    requires !StageStep(opts, Finish, a, f).t.errored
    requires f.t.HasRecv() && !f.t.HasTimeout() ==> f.t.HasWriteAck()
    requires f.t.HasWriteAck() && opts.Relays(f.t.cols.writeAck.status.value) ==> f.t.HasAck() || f.t.HasTimeout()
    ensures Unfinished(StageStep(opts, Finish, a, f).row.status) <==> !f.t.HasRecv() && !f.t.HasTimeout()
  {
    hide Extends, BatchStep, SingleStep;
  }

  /** An error-free pass that ends without a recv found the deadline passed at the recv stage. */
  lemma NoRecvOnlyLate(opts: Options, answers: seq<Answer>, f: Flight)
    requires |answers| == STAGES && Live(Run(opts, answers, f, 7).t) && !Run(opts, answers, f, 8).t.errored
    requires !Run(opts, answers, f, STAGES).t.HasRecv()
    ensures f.t.IsTimedOut(answers[7].now) || f.t.IsTimedOut(answers[7].later)
  {
    hide StageStep, StageAt, Extends, Consistent;
    assert StageAt(7) == DeliverRecv;
    Settled(opts, answers, f, 8, STAGES);
    Earlier(opts, answers, f, 0, 7);
    DeliverRecvStage(opts, answers[7], Run(opts, answers, f, 7));
  }

  lemma RecvGetsWriteAck(opts: Options, answers: seq<Answer>, f: Flight)
    requires |answers| == STAGES && Live(Run(opts, answers, f, 10).t) && !Run(opts, answers, f, 11).t.errored
    requires Run(opts, answers, f, 16).t.HasRecv() && !Run(opts, answers, f, 16).t.HasTimeout()
    ensures Run(opts, answers, f, 16).t.HasWriteAck()
  {
    hide StageStep, StageAt, Extends, Consistent;
    assert StageAt(10) == WaitForWriteAck;
    Settled(opts, answers, f, 10, 16);
    Earlier(opts, answers, f, 10, 16);
    Settled(opts, answers, f, 11, 16);
    WaitForWriteAckStage(opts, answers[10], Run(opts, answers, f, 10));
  }

  lemma RelayedWriteAckGetsAck(opts: Options, answers: seq<Answer>, f: Flight)
    requires |answers| == STAGES && Live(Run(opts, answers, f, 13).t) && !Run(opts, answers, f, 14).t.errored
    requires var c := Run(opts, answers, f, 16).t.cols;
      c.writeAck.hash.Some? && c.writeAck.status.Some? && opts.Relays(c.writeAck.status.value)
    ensures Run(opts, answers, f, 16).t.HasAck() || Run(opts, answers, f, 16).t.HasTimeout()
  {
    hide StageStep, StageAt, Extends, Consistent;
    assert StageAt(13) == DeliverAck;
    Settled(opts, answers, f, 13, 16);
    Settled(opts, answers, f, 14, 16);
    DeliverAckStage(opts, answers[13], Run(opts, answers, f, 13));
  }

  /** An error-free pass over an unfinished row ends in a terminal status exactly if it ends with a
      recv or a timeout hash; and it ends with neither only if the deadline had passed when the recv
      stage looked. */
  lemma PassOutcome(opts: Options, answers: seq<Answer>, row: Row)
    requires |answers| == STAGES && Coherent(row.cols) && Unfinished(row.cols.status)
    requires !Run(opts, answers, Begin(row), STAGES).t.errored
    ensures var end := Run(opts, answers, Begin(row), STAGES);
      && (Unfinished(end.row.status) <==> !end.t.HasRecv() && !end.t.HasTimeout())
      && (Unfinished(end.row.status) ==> end.t.IsTimedOut(answers[7].now) || end.t.IsTimedOut(answers[7].later))
  {
    hide StageStep, StageAt, Extends, Unfinished;
    var f := Begin(row);
    var last, end := Run(opts, answers, f, 16), Run(opts, answers, f, STAGES);
    AllLive(opts, answers, f);
    assert StageAt(16) == Finish;
    AlwaysConsistent(opts, answers, f, 16);
    UnfinishedUntilFinish(opts, answers, f, 16);
    Settled(opts, answers, f, 16, STAGES);
    Earlier(opts, answers, f, 0, STAGES);
    if last.t.HasRecv() && !last.t.HasTimeout() { RecvGetsWriteAck(opts, answers, f); }
    if last.t.HasWriteAck() && opts.Relays(last.t.cols.writeAck.status.value) {
      RelayedWriteAckGetsAck(opts, answers, f);
    }
    if !end.t.HasRecv() { NoRecvOnlyLate(opts, answers, f); }
    FinishStage(opts, answers[16], last);
  }

  /** An ack but neither a recv nor a timeout. */
  predicate AckAlone(c: Columns) { c.recv.hash.None? && c.ack.hash.Some? && c.timeout.hash.None? }

  /** Past the deadline no stage adds a recv or a timeout to an ack that stands alone. */
  lemma AckAloneStep(opts: Options, stage: Stage, a: Answer, f: Flight)
    requires AckAlone(f.t.cols) && f.t.IsTimedOut(a.now)
    ensures AckAlone(StageStep(opts, stage, a, f).t.cols)
  {
    hide Consistent, Effect, FinishStep;
  }

  lemma {:induction false} AckAloneStays(opts: Options, answers: seq<Answer>, f: Flight, k: nat, n: nat)
    requires k <= n <= |answers| <= STAGES && AckAlone(Run(opts, answers, f, k).t.cols)
    requires forall i :: k <= i < n ==> f.t.IsTimedOut(answers[i].now)
    ensures AckAlone(Run(opts, answers, f, n).t.cols)
  {
    hide StageStep, StageAt, Consistent, Extends;
    if k < n {
      AckAloneStays(opts, answers, f, k, n - 1);
      Earlier(opts, answers, f, 0, n - 1);
      AckAloneStep(opts, StageAt(n - 1), answers[n - 1], Run(opts, answers, f, n - 1));
    }
  }

  /** The first two stages, on a transfer without hashes. */
  lemma FirstLooks(opts: Options, a: Answer, b: Answer, f: Flight)
    requires Live(f.t) && !f.t.HasRecv() && !f.t.HasAck() && !f.t.HasTimeout()
    requires Unfinished(f.t.cols.status)
    requires !StageStep(opts, CheckInitialCommitment, b, StageStep(opts, CheckRecvDelivery, a, f)).t.errored
    ensures var g := StageStep(opts, CheckInitialCommitment, b, StageStep(opts, CheckRecvDelivery, a, f));
      && (g.t.HasRecv() <==> a.reply == Some(true))
      && (g.t.HasAck() <==> b.reply == Some(false) && b.foundTx.Some?)
      && (g.t.HasTimeout() <==> b.reply == Some(false) && b.foundTx.None?)
      && (a.reply == Some(true) || a.reply == Some(false))
  {
    hide Consistent, BatchStep, FinishStep;
  }

  lemma DeliverTimeoutStage(opts: Options, a: Answer, f: Flight)
    requires Live(f.t) && !StageStep(opts, DeliverTimeout, a, f).t.errored
    requires f.t.IsTimedOut(a.now) && f.t.IsTimedOut(a.later)
    ensures var t := StageStep(opts, DeliverTimeout, a, f).t; t.HasRecv() || t.HasAck() || t.HasTimeout()
  {
    hide Consistent, Extends, SingleStep, FinishStep;
  }

  /** The pass leaves an ack without a recv: one was there, or the commitment is found gone, with an
      ack tx, for a packet found not received. */
  predicate EndsWithAckAlone(row: Row, answers: seq<Answer>)
    requires |answers| == STAGES
  {
    && row.cols.recv.hash.None? && row.cols.timeout.hash.None?
    && (|| row.cols.ack.hash.Some?
        || (answers[0].reply == Some(false) && answers[1].reply == Some(false) && answers[1].foundTx.Some?))
  }

  /** An error-free pass that begins past the deadline ends in a terminal status, unless it leaves
      an ack without a recv; then, and only then, it does not. */
  lemma PassPastDeadline(opts: Options, answers: seq<Answer>, row: Row)
    requires |answers| == STAGES && Coherent(row.cols) && Unfinished(row.cols.status)
    requires !Run(opts, answers, Begin(row), STAGES).t.errored
    requires forall i :: 0 <= i < STAGES ==>
               row.packet.timeoutTimestamp < answers[i].now && row.packet.timeoutTimestamp < answers[i].later
    ensures Unfinished(Run(opts, answers, Begin(row), STAGES).row.status) <==> EndsWithAckAlone(row, answers)
    ensures EndsWithAckAlone(row, answers) <==> AckAlone(Run(opts, answers, Begin(row), STAGES).t.cols)
  {
    hide StageStep, StageAt, Extends, Unfinished, Consistent;
    var f := Begin(row);
    PassOutcome(opts, answers, row);
    AllLive(opts, answers, f);
    Earlier(opts, answers, f, 0, STAGES);
    Earlier(opts, answers, f, 2, STAGES);
    Earlier(opts, answers, f, 5, STAGES);
    if row.cols.recv.hash.None? && row.cols.timeout.hash.None? {
      if row.cols.ack.hash.Some? {
        AckAloneStays(opts, answers, f, 0, STAGES);
      } else {
        NoHashesPastDeadline(opts, answers, f);
      }
    }
  }

  lemma NoHashesPastDeadline(opts: Options, answers: seq<Answer>, f: Flight)
    requires |answers| == STAGES && !Run(opts, answers, f, STAGES).t.errored
    requires Unfinished(f.t.cols.status) && Unfinished(f.row.status)
    requires !f.t.HasRecv() && !f.t.HasAck() && !f.t.HasTimeout()
    requires forall i :: 0 <= i < STAGES ==> f.t.IsTimedOut(answers[i].now) && f.t.IsTimedOut(answers[i].later)
    ensures var a, b, end := answers[0], answers[1], Run(opts, answers, f, STAGES).t;
      if a.reply == Some(false) && b.reply == Some(false) && b.foundTx.Some?
      then AckAlone(end.cols)
      else end.HasRecv() || end.HasTimeout()
  {
    hide StageStep, StageAt, Extends, Consistent, Unfinished;
    AllLive(opts, answers, f);
    Earlier(opts, answers, f, 2, STAGES);
    assert Run(opts, answers, f, 0) == f;
    TwoLooks(opts, answers, f);
    if AckAlone(Run(opts, answers, f, 2).t.cols) {
      AckAloneStays(opts, answers, f, 2, STAGES);
    } else if !Run(opts, answers, f, 2).t.HasRecv() && !Run(opts, answers, f, 2).t.HasTimeout() {
      TimedOutBy5(opts, answers, f);
      Earlier(opts, answers, f, 5, STAGES);
    }
  }

  lemma TwoLooks(opts: Options, answers: seq<Answer>, f: Flight)
    requires 2 <= |answers| <= STAGES && Live(f.t) && !Run(opts, answers, f, 2).t.errored
    requires !f.t.HasRecv() && !f.t.HasAck() && !f.t.HasTimeout() && Unfinished(f.t.cols.status)
    ensures var a, b, t := answers[0], answers[1], Run(opts, answers, f, 2).t;
      && (t.HasRecv() <==> a.reply == Some(true))
      && (t.HasAck() <==> b.reply == Some(false) && b.foundTx.Some?)
      && (t.HasTimeout() <==> b.reply == Some(false) && b.foundTx.None?)
      && (a.reply == Some(true) || a.reply == Some(false))
  {
    hide StageStep, StageAt, Extends, Consistent, Unfinished;
    assert StageAt(0) == CheckRecvDelivery && StageAt(1) == CheckInitialCommitment;
    assert Run(opts, answers, f, 1) == StageStep(opts, CheckRecvDelivery, answers[0], Run(opts, answers, f, 0));
    FirstLooks(opts, answers[0], answers[1], f);
  }

  lemma TimeoutPathStep(stage: Stage, f: Flight, g: Flight)
    requires Extends(stage, f, g) && (stage.CheckSendFinality? || stage.CheckTimeoutFinality? || stage.DeliverTimeout?)
    ensures g.t.HasRecv() == f.t.HasRecv() && g.t.HasAck() == f.t.HasAck()
  {
  }

  /** Past the deadline, an unerrored transfer without hashes after two stages has a timeout after five. */
  lemma TimedOutBy5(opts: Options, answers: seq<Answer>, f: Flight)
    requires 5 <= |answers| <= STAGES && Live(Run(opts, answers, f, 4).t) && !Run(opts, answers, f, 5).t.errored
    requires f.t.IsTimedOut(answers[4].now) && f.t.IsTimedOut(answers[4].later)
    requires var t := Run(opts, answers, f, 2).t; !t.HasRecv() && !t.HasAck()
    ensures Run(opts, answers, f, 5).t.HasTimeout()
  {
    hide StageStep, StageAt, Consistent, Extends;
    assert StageAt(2) == CheckSendFinality && StageAt(3) == CheckTimeoutFinality && StageAt(4) == DeliverTimeout;
    TimeoutPathStep(CheckSendFinality, Run(opts, answers, f, 2), Run(opts, answers, f, 3));
    TimeoutPathStep(CheckTimeoutFinality, Run(opts, answers, f, 3), Run(opts, answers, f, 4));
    TimeoutPathStep(DeliverTimeout, Run(opts, answers, f, 4), Run(opts, answers, f, 5));
    Earlier(opts, answers, f, 0, 4);
    DeliverTimeoutStage(opts, answers[4], Run(opts, answers, f, 4));
  }

  lemma RetryAckStage(opts: Options, a: Answer, f: Flight)
    requires a.reply != Some(true)
    ensures StageStep(opts, RetryAck, a, f).row.ack.hash == f.row.ack.hash
  {
    hide Consistent, Extends, BatchStep, FinishStep;
  }

  lemma SkipStep(opts: Options, stage: Stage, a: Answer, f: Flight)
    requires !stage.Finish? && !Guard(opts, stage, f.t, a.now)
    ensures StageStep(opts, stage, a, f) == f
  {
    hide Consistent, Extends, Effect, FinishStep, Deliver;
  }

  lemma AckAloneGuards(opts: Options, stage: Stage, a: Answer, f: Flight, g: Flight)
    requires AckAlone(f.t.cols) && AckAlone(f.row) && f.t.IsTimedOut(a.now)
    requires g == StageStep(opts, stage, a, f) && (stage.RetryAck? ==> g.row.ack.hash == f.row.ack.hash)
    ensures AckAlone(g.row)
  {
    hide StageStep, Consistent;
    if !stage.Finish? && !Guard(opts, stage, f.t, a.now) {
      SkipStep(opts, stage, a, f);
    }
  }

  lemma FinishSkips(opts: Options, a: Answer, f: Flight)
    requires AckAlone(f.t.cols)
    ensures StageStep(opts, Finish, a, f) == f
  {
    hide Consistent, Extends;
  }

  /** Past the deadline a row with an ack alone stays so and unfinished through every stage of every
      pass, errors included, until the ack tx itself is found to need a retry. */
  lemma AckAloneRowStep(opts: Options, stage: Stage, a: Answer, f: Flight)
    requires Consistent(f) && AckAlone(f.row) && Unfinished(f.row.status) && f.t.IsTimedOut(a.now)
    requires stage.RetryAck? ==> a.reply != Some(true)
    ensures AckAlone(StageStep(opts, stage, a, f).row) && Unfinished(StageStep(opts, stage, a, f).row.status)
  {
    hide StageStep, Extends, Guard, Unfinished;
    var g := StageStep(opts, stage, a, f);
    if !f.t.errored {
      if stage.RetryAck? {
        RetryAckStage(opts, a, f);
      }
      AckAloneGuards(opts, stage, a, f, g);
      if stage.Finish? {
        FinishSkips(opts, a, f);
      } else {
        StatusStep(stage, f, g);
      }
    }
  }

  /** Answers given later cannot change what the first n stages did. */
  lemma {:induction false} RunPrefix(opts: Options, answers: seq<Answer>, a: Answer, f: Flight, n: nat)
    requires n <= |answers| < STAGES
    ensures Run(opts, answers + [a], f, n) == Run(opts, answers, f, n)
  {
    hide StageStep, StageAt;
    if n > 0 {
      RunPrefix(opts, answers, a, f, n - 1);
    }
  }

  /** A recorded write ack, and the recv it was found in, stay in the row for good. */
  lemma WriteAckStays(opts: Options, stage: Stage, a: Answer, f: Flight)
    requires Consistent(f) && f.row.writeAck.hash.Some?
    ensures var row := StageStep(opts, stage, a, f).row;
      && row.writeAck.(finalizedTime := None) == f.row.writeAck.(finalizedTime := None)
      && row.recv.hash == f.row.recv.hash
  {
    hide StageStep;
    if !f.t.errored && !stage.Finish? && !Guard(opts, stage, f.t, a.now) {
      SkipStep(opts, stage, a, f);
    }
  }

  /** A timeout enters the row only past the deadline, or because one was found on chain. */
  lemma TimeoutEnters(opts: Options, stage: Stage, a: Answer, f: Flight)
    requires a.now <= a.later
    requires f.row.timeout.hash.None? && StageStep(opts, stage, a, f).row.timeout.hash.Some?
    ensures f.t.IsTimedOut(a.later) || (stage.ChecksCommitment() && a.foundTimeoutTx.Some?)
  {
    if stage.ChecksCommitment() || stage.DeliverTimeout? || stage.RetryTimeout? {
      hide Consistent, Extends;
    } else {
      hide Consistent, StageStep;
    }
  }

  /** A stage that submits a recv looked twice and saw the deadline ahead. */
  lemma RecvEnters(opts: Options, stage: Stage, a: Answer, f: Flight)
    requires StageStep(opts, stage, a, f).trace == f.trace + [Submitted(DeliverRecv)]
    ensures Live(f.t) && !f.t.IsTimedOut(a.now) && !f.t.IsTimedOut(a.later)
  {
    assert StageStep(opts, stage, a, f).trace[|f.trace|] == Submitted(DeliverRecv);
    assert stage == DeliverRecv;
    SubmitStep(opts, stage, a, f);
  }
}
