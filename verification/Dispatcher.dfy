/** The dispatcher, the pipeline manager and the dedupers as they are written: objects that update their
    maps in place. A ghost field holds the state of `Dispatch` that they stand for. */
module Dispatcher {
  import opened Transfers
  import opened Dispatch
  import opened Processors

  class PipelineDeduper {
    var inPipeline: set<TransferKey>

    constructor ()
      ensures inPipeline == {}
    {
      inPipeline := {};
    }

    /** A transfer is pushed exactly if its key is not in the pipeline, and then it is. */
    method Push(t: Transfer) returns (pushed: bool)
      modifies this
      ensures pushed <==> TransferKeyOf(t) !in old(inPipeline)
      ensures inPipeline == old(inPipeline) + {TransferKeyOf(t)}
    {
      if TransferKeyOf(t) in inPipeline {
        return false;
      }
      inPipeline := inPipeline + {TransferKeyOf(t)};
      return true;
    }

    /** What the output loop does with a polled transfer. */
    method Forget(t: Transfer)
      modifies this
      ensures inPipeline == old(inPipeline) - {TransferKeyOf(t)}
    {
      inPipeline := inPipeline - {TransferKeyOf(t)};
    }
  }

  /** What the push of an entry that has a pipeline does to the table and the dedupers. */
  lemma PushWithPipeline(cfg: Config, s: System, row: Row)
    requires s.pending != [] && s.pending[0].row == row && HasPipeline(cfg, s, row.packet)
    ensures ApplyPush(cfg, s, false).table == s.table
    ensures Gained(s, ApplyPush(cfg, s, false), row, Accepts(cfg, s))
    ensures Accepts(cfg, s) <==> TransferKeyOf(Load(row)) !in DeduperOf(s, PipelineOf(row.packet)).inPipeline
    ensures var after, p := ApplyPush(cfg, s, false).dedupers, PipelineOf(row.packet);
            && after.Keys == s.dedupers.Keys + {p}
            && after[p].inPipeline == DeduperOf(s, p).inPipeline + {TransferKeyOf(Load(row))}
            && forall q :: q in s.dedupers && q != p ==> after[q] == s.dedupers[q]
  {
  }

  /** The pipelines hold one more copy, of the row as loaded, exactly if it was pushed. */
  ghost predicate Gained(before: System, after: System, row: Row, pushed: bool) {
    after.copies == if pushed then before.copies[before.nextId := Copy(row, before.clock, [], Load(row), [])]
                    else before.copies
  }

  /** A push finds the same whether or not its pipeline was made just before. */
  lemma PipedFirst(cfg: Config, s: System, row: Row)
    requires s.pending != [] && s.pending[0].row == row && HasPipeline(cfg, s, row.packet)
    ensures WithPipeline(s, row.packet).pending == s.pending
    ensures Accepts(cfg, WithPipeline(s, row.packet)) == Accepts(cfg, s)
    ensures ApplyPush(cfg, WithPipeline(s, row.packet), false) == ApplyPush(cfg, s, false)
    ensures Gained(s, ApplyPush(cfg, s, false), row, Accepts(cfg, s))
  {
    var piped := WithPipeline(s, row.packet);
    assert WithPipeline(piped, row.packet) == piped;
  }

  lemma GainedNothing(s: System, row: Row)
    ensures Gained(s, s, row, false)
  {
  }

  datatype Submission = Pushed | AlreadyInPipeline | NoPipeline

  class RelayDispatcher {
    const cfg: Config
    const db: Storage
    var pipelines: map<PipelineKey, PipelineDeduper>
    ghost var world: System

    /** The objects are what the world says, and no two pipelines share a deduper. */
    ghost predicate Valid()
      reads this, db, pipelines.Values
    {
      && db.rows == world.table
      && pipelines.Keys == world.dedupers.Keys
      && (forall p :: p in pipelines ==> pipelines[p].inPipeline == world.dedupers[p].inPipeline)
      && (forall p, q :: p in pipelines && q in pipelines && p != q ==> pipelines[p] != pipelines[q])
    }

    constructor (cfg: Config, db: Storage, ghost s: System)
      requires s.table == db.rows && s.dedupers == map[]
      ensures Valid() && world == s && this.cfg == cfg && this.db == db && pipelines == map[]
    {
      this.cfg, this.db := cfg, db;
      pipelines := map[];
      world := s;
    }

    /** IBCV2PipelineManager.Pipeline: the pipeline of the transfer's key, created if need be; none if the
        chains are not configured. */
    method Pipeline(t: Transfer) returns (p: Option<PipelineDeduper>)
      requires Valid()
      modifies this
      ensures Valid() && p.Some? == HasPipeline(cfg, old(world), t.packet)
      ensures p.Some? ==> PipelineOf(t.packet) in pipelines && p.value == pipelines[PipelineOf(t.packet)]
      ensures p.Some? ==> world == WithPipeline(old(world), t.packet)
      ensures p.None? ==> world == old(world)
      ensures forall d :: d in pipelines.Values ==> d in old(pipelines.Values) || fresh(d)
    {
      var key := PipelineOf(t.packet);
      if key in pipelines {
        world := WithPipeline(world, t.packet);
        assert world.dedupers == old(world).dedupers;
        return Some(pipelines[key]);
      }
      if !Configured(cfg, t.packet) {
        return None;
      }
      var created := new PipelineDeduper();
      pipelines := pipelines[key := created];
      world := WithPipeline(world, t.packet);
      return Some(created);
    }

    /** The push onto the pipeline that the manager gave out. */
    method PushOnto(p: PipelineDeduper, row: Row) returns (pushed: bool)
      requires Valid() && world.pending != [] && world.pending[0].row == row
      requires PipelineOf(row.packet) in pipelines && p == pipelines[PipelineOf(row.packet)]
      modifies `world, p
      ensures Valid() && pushed == Accepts(cfg, old(world)) && world == ApplyPush(cfg, old(world), false)
    {
      hide ApplyPush, Accepts, PipelineOf, TransferKeyOf, Gained;
      PushWithPipeline(cfg, world, row);
      pushed := p.Push(Load(row));
      world := ApplyPush(cfg, world, false);
    }

    /** SubmitTransfer, for the next entry of the snapshot. */
    method SubmitTransfer(row: Row) returns (result: Submission)
      requires Valid() && world.pending != [] && world.pending[0].row == row
      modifies this, pipelines.Values
      ensures Valid()
      ensures result.NoPipeline? <==> !HasPipeline(cfg, old(world), row.packet)
      ensures result.Pushed? <==> HasPipeline(cfg, old(world), row.packet) && Accepts(cfg, old(world))
      ensures !result.NoPipeline? ==> world == ApplyPush(cfg, old(world), false)
      ensures result.NoPipeline? ==> world == old(world)
      ensures Gained(old(world), world, row, result.Pushed?)
      ensures forall d :: d in pipelines.Values ==> d in old(pipelines.Values) || fresh(d)
    {
      hide ApplyPush, Accepts, HasPipeline, PipelineOf, Gained, WithPipeline, TransferKeyOf;
      GainedNothing(world, row);
      var p := Pipeline(Load(row));
      if p.None? {
        return NoPipeline;
      }
      PipedFirst(cfg, old(world), row);
      assert p.value in pipelines.Values;
      var pushed := PushOnto(p.value, row);
      return if pushed then Pushed else AlreadyInPipeline;
    }

    /** One round of SubmitWaitingUnfinishedTransfers: a transfer without a pipeline is marked FAILED. */
    method SubmitOrFail(row: Row, saved: bool)
      requires Valid() && world.pending != [] && world.pending[0].row == row
      modifies this, db, pipelines.Values
      ensures Valid() && world == ApplyPush(cfg, old(world), saved)
      ensures forall d :: d in pipelines.Values ==> d in old(pipelines.Values) || fresh(d)
    {
      hide Accepts;
      var result := SubmitTransfer(row);
      if result.NoPipeline? {
        var err := db.Exec(row.Key(), SetStatus(FAILED), saved);
        world := ApplyPush(cfg, world, saved);
      }
    }

    /** SubmitWaitingUnfinishedTransfers: every unfinished row, in the order the query returns them, is
        submitted once; saves says which of the FAILED marks the database would take. */
    method SubmitWaitingUnfinishedTransfers(order: seq<RowKey>, saves: seq<bool>)
      requires Valid() && Enabled(cfg, world, Snapshot(order)) && |saves| == |order|
      modifies this, db, pipelines.Values
      ensures Valid() && world == Pushes(cfg, Apply(cfg, old(world), Snapshot(order)), saves, |order|)
      ensures world.pending == []
    {
      hide ApplyPush, Pushes;
      var table := db.rows;
      var rows := seq(|order|, i requires 0 <= i < |order| => assert order[i] in order; table[order[i]]);
      world := Apply(cfg, world, Snapshot(order));
      SubmitAll(rows, saves);
    }

    method SubmitAll(rows: seq<Row>, saves: seq<bool>)
      requires Valid() && |world.pending| == |rows| == |saves|
      requires forall i :: 0 <= i < |rows| ==> world.pending[i].row == rows[i]
      modifies this, db, pipelines.Values
      ensures Valid() && world == Pushes(cfg, old(world), saves, |rows|)
    {
      hide ApplyPush;
      ghost var begun := world;
      var n := 0;
      while n < |rows|
        invariant 0 <= n <= |rows| && Valid() && world == Pushes(cfg, begun, saves, n)
        invariant world.pending == begun.pending[n..]
        invariant forall d :: d in pipelines.Values ==> d in old(pipelines.Values) || fresh(d)
      {
        SubmitOrFail(rows[n], saves[n]);
        n := n + 1;
      }
    }

    /** One round of a deduper's output loop: a transfer that has been through the pipeline is polled, and
        its key is deleted from the map of its own deduper. */
    method OutputRound(id: nat, t: Transfer)
      requires Valid() && Enabled(cfg, world, Poll(id)) && world.copies[id].t == t
      modifies this, pipelines.Values
      ensures Enabled(cfg, Apply(cfg, old(world), Poll(id)), Delete(PipelineOf(t.packet)))
      ensures Valid() && pipelines == old(pipelines)
      ensures world == Apply(cfg, Apply(cfg, old(world), Poll(id)), Delete(PipelineOf(t.packet)))
    {
      hide TransferKeyOf;
      PolledAndDeleted(cfg, world, id);
      world := Apply(cfg, Apply(cfg, world, Poll(id)), Delete(PipelineOf(t.packet)));
      assert pipelines[PipelineOf(t.packet)] in pipelines.Values;
      pipelines[PipelineOf(t.packet)].Forget(t);
    }
  }

  /** The first n pushes after a snapshot. */
  function Pushes(cfg: Config, s: System, saves: seq<bool>, n: nat): (r: System)
    requires n <= |s.pending| && n <= |saves|
    ensures r.pending == s.pending[n..]
  {
    if n == 0 then s else ApplyPush(cfg, Pushes(cfg, s, saves, n - 1), saves[n - 1])
  }
}
