/** What guards the submissions, over every run, disciplined or not. */
module Gates {
  import opened Transfers
  import opened Stages
  import opened Pass
  import opened Dispatch
  import opened Dedup

  predicate SameMemory(g: Flight, h: Flight) { g.t == h.t && g.trace == h.trace }

  lemma EffectBlind(opts: Options, stage: Stage, a: Answer, f: Flight, h: Flight)
    requires !stage.Batched() && !stage.Finish? && Guard(opts, stage, f.t, a.now) && SameMemory(f, h)
    ensures SameMemory(Effect(opts, stage, a, f), Effect(opts, stage, a, h))
  {
    hide Consistent, Extends, Guard, Agrees, RowMoves;
    match stage
    case WaitForWriteAck => WriteAckBlind(opts, a, f, h);
    case _ =>
  }

  lemma WriteAckBlind(opts: Options, a: Answer, f: Flight, h: Flight)
    requires Guard(opts, WaitForWriteAck, f.t, a.now) && SameMemory(f, h)
    ensures SameMemory(WriteAckEffect(a, f), WriteAckEffect(a, h))
  {
    hide Consistent, Extends;
  }

  lemma BatchBlind(opts: Options, stage: Stage, a: Answer, f: Flight, h: Flight)
    requires stage.Batched() && SameMemory(f, h)
    ensures SameMemory(BatchStep(opts, stage, a, f), BatchStep(opts, stage, a, h))
  {
    hide Consistent, Extends;
  }

  /** No stage decides anything by looking at the row. */
  lemma RowBlind(opts: Options, stage: Stage, a: Answer, f: Flight, h: Flight)
    requires SameMemory(f, h)
    ensures SameMemory(StageStep(opts, stage, a, f), StageStep(opts, stage, a, h))
  {
    hide Consistent, Extends, Effect, BatchStep;
    if stage.Batched() {
      BatchBlind(opts, stage, a, f, h);
    } else if !stage.Finish? && Guard(opts, stage, f.t, a.now) {
      GuardIgnoresStatus(opts, stage, f.t, a.now, stage.Status());
      EffectBlind(opts, stage, a, WithStatus(f, stage.Status()), WithStatus(h, stage.Status()));
    }
  }

  /** In memory the copy is where a pass over the row it was loaded from has got to, whatever else
      happened to that row meanwhile. */
  predicate RemembersPass(cfg: Config, c: Copy) {
    && Configured(cfg, c.t.packet) && c.start.packet == c.t.packet && |c.answers| <= STAGES
    && var g := Run(OptionsFor(cfg, c.t.packet), c.answers, Begin(c.start), |c.answers|);
       g.t == c.t && g.trace == c.trace
  }

  predicate Remembers(cfg: Config, s: System) {
    && WellFormed(s)
    && (forall p :: p in s.dedupers ==> (p.sourceChainID, p.destinationChainID) in cfg)
    && (forall id :: id in s.copies ==> RemembersPass(cfg, s.copies[id]))
  }

  lemma RemembersMove(cfg: Config, s: System, id: nat, a: Answer)
    requires Remembers(cfg, s) && Enabled(cfg, s, Move(id, a))
    ensures RemembersPass(cfg, ApplyMove(cfg, s, id, a).copies[id])
  {
    hide StageStep, StageAt, WellFormed, Consistent, Extends, EmitsTwice;
    var c := s.copies[id];
    var opts, f := OptionsFor(cfg, c.t.packet), Begin(c.start);
    assert RemembersPass(cfg, c);
    RunPrefix(opts, c.answers, a, f, |c.answers|);
    RowBlind(opts, StageAt(|c.answers|), a, Run(opts, c.answers, f, |c.answers|), FlightOf(s, c));
    MovedPacket(opts, StageAt(|c.answers|), a, FlightOf(s, c));
  }

  lemma MovedPacket(opts: Options, stage: Stage, a: Answer, f: Flight)
    ensures StageStep(opts, stage, a, f).t.packet == f.t.packet
  {
    hide StageStep, Consistent;
  }

  lemma RemembersStep(cfg: Config, s: System, step: Step)
    requires Remembers(cfg, s) && Enabled(cfg, s, step)
    ensures Remembers(cfg, Apply(cfg, s, step))
  {
    hide ApplyMove, ApplyPush, RemembersPass, WellFormed, TransferKeyOf;
    WellFormedStep(cfg, s, step);
    match step
    case Move(id, a) =>
      RemembersMove(cfg, s, id, a);
      CopiesAfterMove(cfg, s, id, a);
    case Push(saved) => RemembersPush(cfg, s, saved);
    case _ =>
  }

  lemma RemembersPush(cfg: Config, s: System, saved: bool)
    requires Remembers(cfg, s) && s.pending != [] && WellFormed(ApplyPush(cfg, s, saved))
    ensures Remembers(cfg, ApplyPush(cfg, s, saved))
  {
    hide RemembersPass, WellFormed, TransferKeyOf, MarkFailed;
    if HasPipeline(cfg, s, s.pending[0].row.packet) {
      RemembersEnter(cfg, s.pending[0].row, s.clock);
    }
  }

  lemma CopiesAfterMove(cfg: Config, s: System, id: nat, a: Answer)
    requires Enabled(cfg, s, Move(id, a))
    ensures var s' := ApplyMove(cfg, s, id, a);
      && s'.dedupers == s.dedupers && id in s'.copies
      && forall j :: j in s'.copies ==> s'.copies[j] == s'.copies[id] || (j in s.copies && s'.copies[j] == s.copies[j])
  {
    hide StageStep, StageAt, EmitsTwice;
  }

  lemma RemembersEnter(cfg: Config, row: Row, clock: Time)
    requires Configured(cfg, row.packet)
    ensures RemembersPass(cfg, Copy(row, clock, [], Load(row), []))
  {
  }

  lemma {:induction false} RemembersRun(cfg: Config, ss: seq<System>, steps: seq<Step>, n: nat)
    requires IsRun(cfg, ss, steps) && n < |ss|
    ensures Remembers(cfg, ss[n])
  {
    hide Apply, Enabled, Remembers;
    if n == 0 {
      RemembersInitially(cfg, ss[0]);
    } else {
      RemembersRun(cfg, ss, steps, n - 1);
      RemembersStep(cfg, ss[n - 1], steps[n - 1]);
    }
  }

  lemma RemembersInitially(cfg: Config, s: System)
    requires Initial(s)
    ensures Remembers(cfg, s)
  {
  }

  /** The answers that must stand in a trace before a submission of each kind. */
  predicate ClearedFor(before: seq<Event>, stage: Stage) {
    match stage
    case DeliverTimeout =>
      && Asked(CheckRecvDelivery, false) in before
      && Asked(CheckInitialCommitment, true) in before
      && Asked(CheckSendFinality, true) in before
    case DeliverRecv => Asked(CheckSendFinality, true) in before
    case DeliverAck => Asked(CheckWriteAckFinality, true) in before && Asked(CheckPostReceiveCommitment, true) in before
    case _ => false
  }

  /** In every state of every run, disciplined or not, every submission a copy ever joined in this pass
      came after the answers that clear it; an ack submission only for a kind of ack that is relayed;
      and a timeout submission after the destination's finality of the deadline, exactly if the
      deadline had passed when that gate was reached. */
  lemma SubmissionsAreCleared(cfg: Config, ss: seq<System>, steps: seq<Step>, n: nat, id: nat, i: nat)
    requires IsRun(cfg, ss, steps) && n < |ss| && id in ss[n].copies
    requires i < |ss[n].copies[id].trace| && ss[n].copies[id].trace[i].Submitted?
    ensures var c := ss[n].copies[id];
      && ClearedFor(c.trace[..i], c.trace[i].stage)
      && (c.trace[i] == Submitted(DeliverAck) ==>
            && Configured(cfg, c.t.packet) && c.t.HasWriteAck() && c.t.cols.writeAck.status.Some?
            && RelaysKind(OptionsFor(cfg, c.t.packet), c.t.cols.writeAck.status.value))
      && (c.trace[i] == Submitted(DeliverTimeout) ==>
            && |c.answers| > 3
            && (Asked(CheckTimeoutFinality, true) in c.trace[..i] <==> c.t.IsTimedOut(c.answers[3].now)))
  {
    hide Apply, Enabled, IsRun, WellFormed;
    RemembersRun(cfg, ss, steps, n);
    PassSubmissions(cfg, ss[n].copies[id], i);
  }

  lemma PassSubmissions(cfg: Config, c: Copy, i: nat)
    requires RemembersPass(cfg, c) && i < |c.trace| && c.trace[i].Submitted?
    ensures ClearedFor(c.trace[..i], c.trace[i].stage)
    ensures c.trace[i] == Submitted(DeliverAck) ==>
              && c.t.HasWriteAck() && c.t.cols.writeAck.status.Some?
              && RelaysKind(OptionsFor(cfg, c.t.packet), c.t.cols.writeAck.status.value)
    ensures c.trace[i] == Submitted(DeliverTimeout) ==>
              && |c.answers| > 3
              && (Asked(CheckTimeoutFinality, true) in c.trace[..i] <==> c.t.IsTimedOut(c.answers[3].now))
  {
    hide Run, Options.Relays;
    var opts, f, n := OptionsFor(cfg, c.t.packet), Begin(c.start), |c.answers|;
    SubmittedAt(opts, c.answers, f, n, i, c.trace[i].stage);
    match c.trace[i].stage
    case DeliverTimeout => TimeoutSubmission(opts, c.answers, f, n, i);
    case DeliverRecv => RecvSubmission(opts, c.answers, f, n, i);
    case DeliverAck => AckSubmission(opts, c.answers, f, n, i);
  }

  /** A timeout tx is only ever found on chain once the relayer's clock is past the deadline. */
  predicate FoundLate(s: System, step: Step) {
    step.Move? && step.id in s.copies && |s.copies[step.id].answers| < STAGES &&
    StageAt(|s.copies[step.id].answers|).ChecksCommitment() && step.answer.foundTimeoutTx.Some? ==>
      s.copies[step.id].t.IsTimedOut(step.answer.later)
  }

  /** Every recorded timeout is past its deadline. */
  predicate TimeoutsPast(s: System) {
    forall k :: k in s.table && s.table[k].cols.timeout.hash.Some? ==> s.table[k].packet.timeoutTimestamp < s.clock
  }

  lemma TimeoutsPastMove(cfg: Config, s: System, id: nat, a: Answer)
    requires WellFormed(s) && TimeoutsPast(s) && Enabled(cfg, s, Move(id, a)) && FoundLate(s, Move(id, a))
    ensures TimeoutsPast(ApplyMove(cfg, s, id, a))
  {
    hide StageStep, StageAt, Consistent, Extends, EmitsTwice;
    var c, f := s.copies[id], FlightOf(s, s.copies[id]);
    MoveFacts(cfg, s, id, a);
    assert OfTable(s.table, c.t.packet);
    var opts, stage := OptionsFor(cfg, c.t.packet), StageAt(|c.answers|);
    if f.row.timeout.hash.None? && StageStep(opts, stage, a, f).row.timeout.hash.Some? {
      TimeoutEnters(opts, stage, a, f);
    }
  }

  lemma TimeoutsPastStep(cfg: Config, s: System, step: Step)
    requires WellFormed(s) && TimeoutsPast(s) && Enabled(cfg, s, step) && FoundLate(s, step)
    ensures TimeoutsPast(Apply(cfg, s, step))
  {
    hide ApplyMove, ApplyPush, FoundLate, InFlight;
    match step
    case Move(id, a) => TimeoutsPastMove(cfg, s, id, a);
    case Push(saved) => PushedColumns(cfg, s, saved);
    case _ =>
  }

  /** A push changes at most the status of a row. */
  lemma PushedColumns(cfg: Config, s: System, saved: bool)
    requires s.pending != []
    ensures var s' := ApplyPush(cfg, s, saved);
      && s'.clock == s.clock && s'.table.Keys == s.table.Keys
      && forall k :: k in s.table ==>
           s'.table[k].packet == s.table[k].packet && s'.table[k].cols.timeout == s.table[k].cols.timeout
  {
    hide HasPipeline, Accepts, TransferKeyOf;
  }

  lemma {:induction false} TimeoutsPastRun(cfg: Config, ss: seq<System>, steps: seq<Step>, n: nat)
    requires IsRun(cfg, ss, steps) && n < |ss| && forall i :: 0 <= i < |steps| ==> FoundLate(ss[i], steps[i])
    ensures TimeoutsPast(ss[n])
  {
    hide Apply, Enabled, FoundLate, Remembers;
    if n > 0 {
      TimeoutsPastRun(cfg, ss, steps, n - 1);
      RemembersRun(cfg, ss, steps, n - 1);
      WellFormedOf(cfg, ss[n - 1]);
      TimeoutsPastStep(cfg, ss[n - 1], steps[n - 1]);
    }
  }

  lemma WellFormedOf(cfg: Config, s: System)
    requires Remembers(cfg, s)
    ensures WellFormed(s)
  {
  }

  /** Over every run in which timeouts are only found late: every recorded timeout is past its deadline,
      and so no step submits a recv for a row with a recorded timeout. */
  lemma NoRecvOverTimeout(cfg: Config, ss: seq<System>, steps: seq<Step>, n: nat)
    requires IsRun(cfg, ss, steps) && n < |steps| && forall i :: 0 <= i < |steps| ==> FoundLate(ss[i], steps[i])
    requires steps[n].Move?
    requires ss[n + 1].copies[steps[n].id].trace == ss[n].copies[steps[n].id].trace + [Submitted(DeliverRecv)]
    ensures TimeoutsPast(ss[n])
    ensures ss[n].table[ss[n].copies[steps[n].id].t.Key()].cols.timeout.hash.None?
  {
    hide FoundLate, StageStep, StageAt, Consistent, Extends, EmitsTwice, RemembersPass;
    var s, id, a := ss[n], steps[n].id, steps[n].answer;
    TimeoutsPastRun(cfg, ss, steps, n);
    RemembersRun(cfg, ss, steps, n);
    assert OfTable(s.table, s.copies[id].t.packet);
    RecvEnters(OptionsFor(cfg, s.copies[id].t.packet), StageAt(|s.copies[id].answers|), a, FlightOf(s, s.copies[id]));
  }

  /** The recv stage itself does not look at the timeout hash: it submits exactly the live, listed
      transfers without a recv whose deadline is ahead at both looks. */
  lemma RecvSubmittedExactly(opts: Options, a: Answer, f: Flight)
    ensures StageStep(opts, DeliverRecv, a, f).trace == f.trace + [Submitted(DeliverRecv)] <==>
            Live(f.t) && !f.t.HasRecv() && !f.t.IsTimedOut(a.now) && !f.t.IsTimedOut(a.later) && a.listed
  {
    hide Consistent, Extends, SingleStep, FinishStep;
    assert |f.trace + [Submitted(DeliverRecv)]| == |f.trace| + 1;
  }
}
