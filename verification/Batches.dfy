/** The batch middleware and the batch processors as they are written: loops over references to transfers
    that are updated in place, and over the table through storage calls. A reference is an index. */
module Batches {
  import opened Transfers
  import opened Stages
  import opened Processors
  import opened Requests
  import BatchNetwork

  type Ref = BatchNetwork.Ref

  /** A transfer in memory, with its history in this pass. */
  datatype Mem = Mem(t: Transfer, trace: seq<Event>)

  /** What the world tells the middleware about a batch. */
  datatype World = World(
    later: seq<Time>,              // the clock at the middleware's look at each transfer's guard
    statusSaved: seq<bool>,        // did UpdateTransferState succeed
    delivered: Option<BridgeTx>,   // None when getting, waiting for or submitting the batch tx failed
    failAt: Option<nat>,           // the statement of the final transaction that fails, if one does
    committed: bool)               // does the commit succeed
  {
    /** The batch as a whole errs, with n statements in its transaction. */
    predicate Errs(n: nat) { delivered.None? || !committed || (failAt.Some? && failAt.value < n) }
  }

  predicate Covers(w: World, n: nat) { |w.later| == n && |w.statusSaved| == n }

  /** The middleware lets the transfer through to the batch processor. */
  predicate Passes(opts: Options, stage: Stage, t: Transfer, later: Time) {
    !t.errored && t.cols.status != FAILED && Guard(opts, stage, t, later)
  }

  /** The status update of an admitted transfer. A failed one errors the transfer, which goes on. */
  function Marked(stage: Stage, saved: bool, m: Mem): Mem {
    m.(t := m.t.(cols := m.t.cols.(status := stage.Status()), errored := !saved))
  }

  function FailMem(m: Mem): Mem { m.(t := m.t.(errored := true)) }

  function VerdictOf(opts: Options, stage: Stage, w: World, t: Transfer, x: Ref): BatchNetwork.Verdict
    requires x < |w.later| && x < |w.statusSaved|
  {
    if !Passes(opts, stage, t, w.later[x]) then BatchNetwork.Skipped
    else if w.statusSaved[x] then BatchNetwork.Processed
    else BatchNetwork.StatusFailed
  }

  predicate InRange(batch: seq<Ref>, n: nat) { forall i :: 0 <= i < |batch| ==> batch[i] < n }

  /** Only errored transfers come up more than once in a batch. */
  ghost predicate OnceUnlessErrored(fs: seq<Mem>, batch: seq<Ref>)
    requires InRange(batch, |fs|)
  {
    forall i, j :: 0 <= i < j < |batch| && batch[i] == batch[j] ==> fs[batch[i]].t.errored
  }

  function Verdicts(opts: Options, stage: Stage, w: World, fs: seq<Mem>, batch: seq<Ref>)
    : (vs: seq<BatchNetwork.Verdict>)
    requires InRange(batch, |fs|) && Covers(w, |fs|)
    ensures |vs| == |batch|
  {
    seq(|batch|, i requires 0 <= i < |batch| => VerdictOf(opts, stage, w, fs[batch[i]].t, batch[i]))
  }

  function KeysOf(fs: seq<Mem>, refs: seq<Ref>): (keys: seq<RowKey>)
    requires InRange(refs, |fs|)
    ensures |keys| == |refs|
    ensures forall i :: 0 <= i < |refs| ==> keys[i] == fs[refs[i]].t.Key()
  {
    seq(|refs|, i requires 0 <= i < |refs| => fs[refs[i]].t.Key())
  }

  function SavedOf(w: World, refs: seq<Ref>): (saved: seq<bool>)
    requires InRange(refs, |w.statusSaved|)
    ensures |saved| == |refs|
    ensures forall i :: 0 <= i < |refs| ==> saved[i] == w.statusSaved[refs[i]]
  {
    seq(|refs|, i requires 0 <= i < |refs| => w.statusSaved[refs[i]])
  }

  /** The update u of those of the first n keys that are taken, in order. */
  function Updates(keys: seq<RowKey>, take: seq<bool>, u: Update, n: nat): seq<(RowKey, Update)>
    requires n <= |keys| == |take|
  {
    if n == 0 then []
    else Updates(keys, take, u, n - 1) + (if take[n - 1] then [(keys[n - 1], u)] else [])
  }

  /** All of them. */
  function AllUpdates(keys: seq<RowKey>, take: seq<bool>, u: Update): seq<(RowKey, Update)>
    requires |keys| == |take|
  {
    Updates(keys, take, u, |keys|)
  }

  lemma {:induction false} UpdatesAppend(keys: seq<RowKey>, take: seq<bool>, u: Update, n: nat, k: RowKey, b: bool)
    requires n <= |keys| == |take|
    ensures Updates(keys + [k], take + [b], u, n) == Updates(keys, take, u, n)
  {
    if n != 0 {
      UpdatesAppend(keys, take, u, n - 1, k, b);
    }
  }

  lemma AllUpdatesAppend(rows: map<RowKey, Row>, keys: seq<RowKey>, take: seq<bool>, u: Update, k: RowKey, b: bool)
    requires |keys| == |take|
    ensures AllUpdates(keys + [k], take + [b], u) == AllUpdates(keys, take, u) + (if b then [(k, u)] else [])
    ensures PutAll(rows, AllUpdates(keys + [k], take + [b], u))
            == if b then Put(PutAll(rows, AllUpdates(keys, take, u)), k, u) else PutAll(rows, AllUpdates(keys, take, u))
  {
    UpdatesAppend(keys, take, u, |keys|, k, b);
    var us := AllUpdates(keys, take, u);
    assert AllUpdates(keys + [k], take + [b], u) == us + (if b then [(k, u)] else []);
    if b {
      assert (us + [(k, u)])[..|us|] == us;
    } else {
      assert us + [] == us;
    }
  }

  /** What the first loop of the middleware makes of a transfer that is in the batch. */
  function Entered(opts: Options, stage: Stage, w: World, m: Mem, x: Ref): Mem
    requires x < |w.later| && x < |w.statusSaved|
  {
    if Passes(opts, stage, m.t, w.later[x]) then Marked(stage, w.statusSaved[x], m) else m
  }

  lemma EnteredErrored(opts: Options, stage: Stage, w: World, m: Mem, x: Ref)
    requires x < |w.later| && x < |w.statusSaved|
    ensures m.t.errored ==> Entered(opts, stage, w, m, x) == m
  {
  }

  /** One round of the loop: is the transfer to be processed, and did its status update fail? */
  method Consider(opts: Options, stage: Stage, fs: array<Mem>, db: Storage, x: Ref, w: World)
    returns (process: bool, failed: bool)
    requires x < fs.Length && Covers(w, fs.Length)
    modifies fs, db
    ensures fs[..] == old(fs[..])[x := Entered(opts, stage, w, old(fs[x]), x)]
    ensures VerdictOf(opts, stage, w, old(fs[x].t), x) ==
            if !process then BatchNetwork.Skipped
            else if failed then BatchNetwork.StatusFailed else BatchNetwork.Processed
    ensures process ==> failed == !w.statusSaved[x]
    ensures db.rows == if process && !failed then Put(old(db.rows), old(fs[x].t.Key()), SetStatus(stage.Status()))
                       else old(db.rows)
  {
    hide Guard, Put;
    failed := false;
    if fs[x].t.errored || fs[x].t.cols.status == FAILED || !Guard(opts, stage, fs[x].t, w.later[x]) {
      return false, false;
    }
    failed := db.Exec(fs[x].t.Key(), SetStatus(stage.Status()), w.statusSaved[x]);
    if failed {
      fs[x] := FailMem(fs[x]);
    }
    fs[x] := fs[x].(t := fs[x].t.(cols := fs[x].t.cols.(status := stage.Status())));
    process := true;
  }

  lemma OneMore(batch: seq<Ref>, vs: seq<BatchNetwork.Verdict>, i: nat)
    requires i < |batch| == |vs|
    ensures BatchNetwork.ToProcess(batch[..i + 1], vs[..i + 1])
            == BatchNetwork.ToProcess(batch[..i], vs[..i]) + (if vs[i].Skipped? then [] else [batch[i]])
    ensures BatchNetwork.NotProcessing(batch[..i + 1], vs[..i + 1])
            == BatchNetwork.NotProcessing(batch[..i], vs[..i]) + (if vs[i].Processed? then [] else [batch[i]])
  {
    assert batch[..i + 1][..i] == batch[..i] && vs[..i + 1][..i] == vs[..i];
  }

  lemma NoneYet()
    ensures BatchNetwork.ToProcess([], []) == [] == BatchNetwork.NotProcessing([], [])
  {
  }

  /** The first loop of IBCV2BatchProcessorMW.Process. */
  method Select(opts: Options, stage: Stage, fs: array<Mem>, db: Storage, batch: seq<Ref>, w: World)
    returns (toProcess: seq<Ref>, notProcessing: seq<Ref>)
    requires InRange(batch, fs.Length) && Covers(w, fs.Length) && OnceUnlessErrored(fs[..], batch)
    modifies fs, db
    ensures toProcess == BatchNetwork.ToProcess(batch, Verdicts(opts, stage, w, old(fs[..]), batch))
    ensures notProcessing == BatchNetwork.NotProcessing(batch, Verdicts(opts, stage, w, old(fs[..]), batch))
    ensures forall x :: 0 <= x < fs.Length ==>
              fs[x] == if x in batch then Entered(opts, stage, w, old(fs[x]), x) else old(fs[x])
    ensures InRange(toProcess, fs.Length)
    ensures db.rows == PutAll(old(db.rows), AllUpdates(KeysOf(old(fs[..]), toProcess), SavedOf(w, toProcess),
                                                       SetStatus(stage.Status())))
  {
    hide VerdictOf, Entered, BatchNetwork.ToProcess, BatchNetwork.NotProcessing, AllUpdates, Put, PutAll;
    NoneYet();
    NoUpdates(db.rows, SetStatus(stage.Status()));
    ghost var was := fs[..];
    ghost var vs := Verdicts(opts, stage, w, was, batch);
    toProcess, notProcessing := [], [];
    var i := 0;
    while i < |batch|
      invariant 0 <= i <= |batch| && InRange(toProcess, fs.Length)
      invariant toProcess == BatchNetwork.ToProcess(batch[..i], vs[..i])
      invariant notProcessing == BatchNetwork.NotProcessing(batch[..i], vs[..i])
      invariant forall x :: 0 <= x < fs.Length ==>
                  fs[x] == if x in batch[..i] then Entered(opts, stage, w, was[x], x) else was[x]
      invariant db.rows == PutAll(old(db.rows), AllUpdates(KeysOf(was, toProcess), SavedOf(w, toProcess),
                                                           SetStatus(stage.Status())))
    {
      var x := batch[i];
      OneMore(batch, vs, i);
      assert x in batch[..i] ==> was[x].t.errored;
      EnteredErrored(opts, stage, w, was[x], x);
      ghost var before := fs[..];
      var process, failed := Consider(opts, stage, fs, db, x, w);
      if process {
        StatusAppend(old(db.rows), stage, w, was, toProcess, x);
        toProcess := toProcess + [x];
      }
      if !process || failed {
        notProcessing := notProcessing + [x];
      }
      i := i + 1;
      assert forall y :: 0 <= y < fs.Length ==>
               fs[y] == fs[..][y] == if y == x then Entered(opts, stage, w, was[x], x) else before[y];
    }
    assert batch[..i] == batch && vs[..i] == vs;
  }

  lemma NoUpdates(rows: map<RowKey, Row>, u: Update)
    ensures PutAll(rows, AllUpdates([], [], u)) == rows
  {
  }

  lemma StatusAppend(rows: map<RowKey, Row>, stage: Stage, w: World, fs: seq<Mem>, refs: seq<Ref>, x: Ref)
    requires InRange(refs, |fs|) && x < |fs| && Covers(w, |fs|)
    ensures InRange(refs + [x], |fs|)
    ensures var u := SetStatus(stage.Status());
            PutAll(rows, AllUpdates(KeysOf(fs, refs + [x]), SavedOf(w, refs + [x]), u))
            == var before := PutAll(rows, AllUpdates(KeysOf(fs, refs), SavedOf(w, refs), u));
               if w.statusSaved[x] then Put(before, fs[x].t.Key(), u) else before
  {
    hide AllUpdates, PutAll, Put;
    assert KeysOf(fs, refs + [x]) == KeysOf(fs, refs) + [fs[x].t.Key()];
    assert SavedOf(w, refs + [x]) == SavedOf(w, refs) + [w.statusSaved[x]];
    AllUpdatesAppend(rows, KeysOf(fs, refs), SavedOf(w, refs), SetStatus(stage.Status()), fs[x].t.Key(),
                     w.statusSaved[x]);
  }

  predicate NoRepeats(refs: seq<Ref>) {
    forall i, j :: 0 <= i < j < |refs| ==> refs[i] != refs[j]
  }

  /** The batch processor gets each admitted transfer of the batch once, and nothing else. */
  lemma {:induction false} ToProcessIsAdmitted(opts: Options, stage: Stage, w: World, fs: seq<Mem>, batch: seq<Ref>)
    requires InRange(batch, |fs|) && Covers(w, |fs|) && OnceUnlessErrored(fs, batch)
    ensures var refs := BatchNetwork.ToProcess(batch, Verdicts(opts, stage, w, fs, batch));
            && InRange(refs, |fs|) && NoRepeats(refs)
            && forall x :: 0 <= x < |fs| ==> (x in refs <==> x in batch && Passes(opts, stage, fs[x].t, w.later[x]))
  {
    hide Passes, VerdictOf, BatchNetwork.ToProcess;
    var vs := Verdicts(opts, stage, w, fs, batch);
    if batch == [] {
      NoneYet();
      assert vs == [];
    } else {
      var n := |batch| - 1;
      var x := batch[n];
      ToProcessIsAdmitted(opts, stage, w, fs, batch[..n]);
      var front := BatchNetwork.ToProcess(batch[..n], Verdicts(opts, stage, w, fs, batch[..n]));
      assert vs[..n] == Verdicts(opts, stage, w, fs, batch[..n]);
      OneMore(batch, vs, n);
      assert batch[..n + 1] == batch && vs[..n + 1] == vs && batch == batch[..n] + [x];
      PassesOrSkipped(opts, stage, w, fs[x].t, x);
      assert x in batch[..n] ==> fs[x].t.errored;
      assert BatchNetwork.ToProcess(batch, vs) == front + (if vs[n].Skipped? then [] else [x]);
    }
  }

  lemma PassesOrSkipped(opts: Options, stage: Stage, w: World, t: Transfer, x: Ref)
    requires x < |w.later| && x < |w.statusSaved|
    ensures VerdictOf(opts, stage, w, t, x).Skipped? <==> !Passes(opts, stage, t, w.later[x])
    ensures Passes(opts, stage, t, w.later[x]) ==> !t.errored
  {
  }

  /** What the request-building loop sees of a transfer. */
  function ItemOf(stage: Stage, t: Transfer): Item {
    if stage.DeliverAck? then
      Item(t.cols.writeAck.hash, if t.HasWriteAck() then t.cols.writeAck.hash.value else "", t.Sequence())
    else Item(Some(t.packet.sourceTxHash), t.packet.sourceChainID, t.Sequence())
  }

  function ItemsOf(stage: Stage, fs: seq<Mem>, refs: seq<Ref>): (items: seq<Item>)
    requires InRange(refs, |fs|)
    ensures |items| == |refs|
    ensures forall i :: 0 <= i < |refs| ==> items[i] == ItemOf(stage, fs[refs[i]].t)
  {
    seq(|refs|, i requires 0 <= i < |refs| => ItemOf(stage, fs[refs[i]].t))
  }

  /** The loop of a batch processor joins a transfer to the request or errors it. */
  function Joined(stage: Stage, m: Mem, listed: bool): Mem {
    if listed then m.(trace := m.trace + [Submitted(stage)]) else FailMem(m)
  }

  /** One round of the loop. */
  method Join(stage: Stage, fs: array<Mem>, x: Ref, r: Request) returns (next: Request)
    requires x < fs.Length
    modifies fs
    ensures next == Add(r, ItemOf(stage, old(fs[x].t)))
    ensures |next.listed| == |r.listed| + 1 && next.listed[..|r.listed|] == r.listed
    ensures next.sequences
            == r.sequences + if next.listed[|r.listed|] then [ToUInt32(old(fs[x].t.packet.sequence))] else []
    ensures fs[..] == old(fs[..])[x := Joined(stage, old(fs[x]), next.listed[|r.listed|])]
  {
    hide TxID;
    var t := fs[x].t;
    if stage.DeliverAck? && !t.HasWriteAck() {
      fs[x] := FailMem(fs[x]);
      return r.(listed := r.listed + [false]);
    }
    var hash := if stage.DeliverAck? then t.cols.writeAck.hash.value else t.packet.sourceTxHash;
    if hash in r.seen {
      next := r.(sequences := r.sequences + [t.Sequence()], listed := r.listed + [true]);
    } else {
      var id := TxID(hash);
      if id.None? {
        fs[x] := FailMem(fs[x]);
        return r.(listed := r.listed + [false]);
      }
      var mark := if stage.DeliverAck? then hash else t.packet.sourceChainID;
      next := Request(r.txIDs + [id.value], r.sequences + [t.Sequence()], r.seen + {mark}, r.listed + [true]);
    }
    fs[x] := fs[x].(trace := fs[x].trace + [Submitted(stage)]);
  }

  /** The first loop of the three batch processors. */
  method BuildRequest(stage: Stage, fs: array<Mem>, refs: seq<Ref>) returns (r: Request)
    requires InRange(refs, fs.Length) && NoRepeats(refs)
    modifies fs
    ensures r == Build(ItemsOf(stage, old(fs[..]), refs), |refs|)
    ensures r.sequences == ListedSequences(old(fs[..]), refs, r.listed, |refs|)
    ensures forall i :: 0 <= i < |refs| ==> fs[refs[i]] == Joined(stage, old(fs[refs[i]]), r.listed[i])
    ensures forall x :: 0 <= x < fs.Length && x !in refs ==> fs[x] == old(fs[x])
  {
    hide Add, ItemOf, Joined;
    ghost var was := fs[..];
    ghost var items := ItemsOf(stage, was, refs);
    r := Request([], [], {}, []);
    var n := 0;
    while n < |refs|
      invariant 0 <= n <= |refs| && r == Build(items, n)
      invariant forall i :: 0 <= i < n ==> fs[refs[i]] == Joined(stage, was[refs[i]], r.listed[i])
      invariant forall x :: 0 <= x < fs.Length && x !in refs[..n] ==> fs[x] == was[x]
    {
      var x := refs[n];
      assert x !in refs[..n];
      ghost var before := fs[..];
      ghost var listed := r.listed;
      r := Join(stage, fs, x, r);
      assert forall y :: 0 <= y < fs.Length && y != x ==> fs[..][y] == before[y];
      assert fs[x] == fs[..][x] == Joined(stage, was[x], r.listed[n]);
      forall i | 0 <= i < n ensures fs[refs[i]] == Joined(stage, was[refs[i]], r.listed[i]) {
        assert r.listed[i] == r.listed[..n][i] == listed[i] && refs[i] != x;
        assert fs[..][refs[i]] == before[refs[i]];
      }
      n := n + 1;
    }
    RequestListsSequences(stage, was, refs);
  }

  /** The row update that the batch processor makes for its tx. */
  function TxUpdate(stage: Stage, tx: BridgeTx): Update
    requires stage.Batched()
  {
    match stage
    case DeliverRecv => SetRecvTx(tx)
    case DeliverTimeout => SetTimeoutTx(tx)
    case DeliverAck => SetAckTx(tx)
  }

  /** The in-memory update; only recv copies the relayer's address. */
  function Recorded(stage: Stage, tx: BridgeTx, m: Mem): Mem
    requires stage.Batched()
  {
    if m.t.errored then m
    else m.(t := m.t.(cols :=
                   match stage
                   case DeliverRecv => WithRecv(m.t.cols, tx)
                   case DeliverTimeout => m.t.cols.(timeout := HashAndTime(m.t.cols.timeout, tx))
                   case DeliverAck => m.t.cols.(ack := HashAndTime(m.t.cols.ack, tx))))
  }

  function Unerrored(fs: seq<Mem>, refs: seq<Ref>): (take: seq<bool>)
    requires InRange(refs, |fs|)
    ensures |take| == |refs|
    ensures forall i :: 0 <= i < |refs| ==> take[i] == !fs[refs[i]].t.errored
  {
    seq(|refs|, i requires 0 <= i < |refs| => !fs[refs[i]].t.errored)
  }

  /** The statements of the batch processors' transaction: one for every unerrored transfer. */
  method Statements(stage: Stage, fs: array<Mem>, refs: seq<Ref>, tx: BridgeTx) returns (us: seq<(RowKey, Update)>)
    requires stage.Batched() && InRange(refs, fs.Length)
    ensures us == AllUpdates(KeysOf(fs[..], refs), Unerrored(fs[..], refs), TxUpdate(stage, tx))
  {
    hide TxUpdate;
    ghost var keys, take := KeysOf(fs[..], refs), Unerrored(fs[..], refs);
    us := [];
    var n := 0;
    while n < |refs|
      invariant 0 <= n <= |refs| && us == Updates(keys, take, TxUpdate(stage, tx), n)
    {
      var t := fs[refs[n]].t;
      if !t.errored {
        us := us + [(t.Key(), TxUpdate(stage, tx))];
      }
      n := n + 1;
    }
  }

  /** The transaction: every unerrored transfer's row takes the tx, or the table stays as it is. */
  method RecordRows(stage: Stage, fs: array<Mem>, db: Storage, refs: seq<Ref>, tx: BridgeTx, w: World)
    returns (err: bool)
    requires stage.Batched() && InRange(refs, fs.Length) && w.delivered == Some(tx)
    modifies db
    ensures var us := AllUpdates(KeysOf(fs[..], refs), Unerrored(fs[..], refs), TxUpdate(stage, tx));
            && err == w.Errs(|us|)
            && db.rows == if err then old(db.rows) else PutAll(old(db.rows), us)
  {
    hide PutAll, AllUpdates, TxUpdate;
    var us := Statements(stage, fs, refs, tx);
    err := db.ExecTx(us, w.failAt, w.committed);
  }

  method RecordInMemory(stage: Stage, fs: array<Mem>, refs: seq<Ref>, tx: BridgeTx)
    requires stage.Batched() && InRange(refs, fs.Length) && NoRepeats(refs)
    modifies fs
    ensures forall x :: 0 <= x < fs.Length ==>
              fs[x] == if x in refs then Recorded(stage, tx, old(fs[x])) else old(fs[x])
  {
    hide Recorded;
    var n := 0;
    while n < |refs|
      invariant 0 <= n <= |refs|
      invariant forall x :: 0 <= x < fs.Length ==>
                  fs[x] == if x in refs[..n] then Recorded(stage, tx, old(fs[x])) else old(fs[x])
    {
      assert refs[n] !in refs[..n];
      fs[refs[n]] := Recorded(stage, tx, fs[refs[n]]);
      n := n + 1;
    }
    assert refs[..n] == refs;
  }

  /** The middleware's answer to an error of the whole batch. */
  method FailAll(fs: array<Mem>, refs: seq<Ref>)
    requires InRange(refs, fs.Length)
    modifies fs
    ensures forall x :: 0 <= x < fs.Length ==> fs[x] == if x in refs then FailMem(old(fs[x])) else old(fs[x])
  {
    var n := 0;
    while n < |refs|
      invariant 0 <= n <= |refs|
      invariant forall x :: 0 <= x < fs.Length ==>
                  fs[x] == if x in refs[..n] then FailMem(old(fs[x])) else old(fs[x])
    {
      fs[refs[n]] := FailMem(fs[refs[n]]);
      n := n + 1;
    }
    assert refs[..n] == refs;
  }

  /** Joined to the request and, if the batch was delivered and saved, given its tx. */
  function Delivered(stage: Stage, m: Mem, listed: bool, tx: Option<BridgeTx>): Mem
    requires stage.Batched()
  {
    if tx.None? then Joined(stage, m, listed) else Recorded(stage, tx.value, Joined(stage, m, listed))
  }

  /** Which transfers of the batch are without an error when it is recorded. */
  function Recordable(fs: seq<Mem>, refs: seq<Ref>, listed: seq<bool>): (take: seq<bool>)
    requires InRange(refs, |fs|) && |listed| == |refs|
    ensures |take| == |refs|
    ensures forall i :: 0 <= i < |refs| ==> take[i] == (!fs[refs[i]].t.errored && listed[i])
  {
    seq(|refs|, i requires 0 <= i < |refs| => !fs[refs[i]].t.errored && listed[i])
  }

  /** The statements of the transaction, from the transfers as the processor got them. */
  function TxUpdates(stage: Stage, fs: seq<Mem>, refs: seq<Ref>, listed: seq<bool>, w: World): seq<(RowKey, Update)>
    requires stage.Batched() && InRange(refs, |fs|) && |listed| == |refs|
  {
    if w.delivered.None? then []
    else AllUpdates(KeysOf(fs, refs), Recordable(fs, refs, listed), TxUpdate(stage, w.delivered.value))
  }

  /** Process of the three batch processors; an error of the whole batch is left to the middleware. */
  method DeliverBatch(stage: Stage, fs: array<Mem>, db: Storage, refs: seq<Ref>, w: World)
    returns (err: bool, r: Request)
    requires stage.Batched() && InRange(refs, fs.Length) && NoRepeats(refs)
    modifies fs, db
    ensures r == Build(ItemsOf(stage, old(fs[..]), refs), |refs|)
    ensures err == w.Errs(|TxUpdates(stage, old(fs[..]), refs, r.listed, w)|)
    ensures forall i :: 0 <= i < |refs| ==>
              fs[refs[i]] == Delivered(stage, old(fs[refs[i]]), r.listed[i], if err then None else w.delivered)
    ensures forall x :: 0 <= x < fs.Length && x !in refs ==> fs[x] == old(fs[x])
    ensures db.rows == if err then old(db.rows)
                       else PutAll(old(db.rows), TxUpdates(stage, old(fs[..]), refs, r.listed, w))
  {
    hide Build, ItemsOf, Recorded, PutAll, AllUpdates, TxUpdate, ListedSequences;
    r := BuildRequest(stage, fs, refs);
    if w.delivered.None? {
      return true, r;
    }
    assert KeysOf(fs[..], refs) == KeysOf(old(fs[..]), refs);
    assert Unerrored(fs[..], refs) == Recordable(old(fs[..]), refs, r.listed);
    err := RecordRows(stage, fs, db, refs, w.delivered.value, w);
    if err {
      return;
    }
    RecordInMemory(stage, fs, refs, w.delivered.value);
  }

  /** A delivery and the middleware's answer to an error of the whole batch. */
  function Outcome(stage: Stage, w: World, err: bool, m: Mem, listed: bool): Mem
    requires stage.Batched()
  {
    if err then FailMem(Joined(stage, m, listed)) else Delivered(stage, m, listed, w.delivered)
  }

  /** The rest of the middleware after its first loop. */
  method ProcessSelected(stage: Stage, fs: array<Mem>, db: Storage, refs: seq<Ref>, w: World)
    returns (err: bool, r: Request)
    requires stage.Batched() && InRange(refs, fs.Length) && NoRepeats(refs)
    modifies fs, db
    ensures r == Build(ItemsOf(stage, old(fs[..]), refs), |refs|)
    ensures err == w.Errs(|TxUpdates(stage, old(fs[..]), refs, r.listed, w)|)
    ensures forall i :: 0 <= i < |refs| ==> fs[refs[i]] == Outcome(stage, w, err, old(fs[..])[refs[i]], r.listed[i])
    ensures forall x :: 0 <= x < fs.Length && x !in refs ==> fs[x] == old(fs[..])[x]
    ensures db.rows == if err then old(db.rows)
                       else PutAll(old(db.rows), TxUpdates(stage, old(fs[..]), refs, r.listed, w))
  {
    hide Build, ItemsOf, Joined, Recorded, PutAll, TxUpdates;
    err, r := DeliverBatch(stage, fs, db, refs, w);
    if err {
      FailAll(fs, refs);
    }
  }

  lemma EnteredItem(opts: Options, stage: Stage, w: World, m: Mem, x: Ref)
    requires x < |w.later| && x < |w.statusSaved|
    ensures ItemOf(stage, Entered(opts, stage, w, m, x).t) == ItemOf(stage, m.t)
    ensures Entered(opts, stage, w, m, x).t.Key() == m.t.Key()
    ensures Passes(opts, stage, m.t, w.later[x]) ==> Entered(opts, stage, w, m, x).t.errored == !w.statusSaved[x]
    ensures !Passes(opts, stage, m.t, w.later[x]) ==> Entered(opts, stage, w, m, x) == m
  {
    hide Guard;
  }

  /** Which transfers of the batch take its tx: those whose status was saved and that the request lists. */
  function Takers(w: World, refs: seq<Ref>, listed: seq<bool>): (take: seq<bool>)
    requires InRange(refs, |w.statusSaved|) && |listed| == |refs|
    ensures |take| == |refs|
    ensures forall i :: 0 <= i < |refs| ==> take[i] == (w.statusSaved[refs[i]] && listed[i])
  {
    seq(|refs|, i requires 0 <= i < |refs| => w.statusSaved[refs[i]] && listed[i])
  }

  /** All the statements of a batch: the status of every transfer whose status is saved, and then, unless
      the batch errs, the tx of every taker. */
  function BatchUpdates(stage: Stage, w: World, keys: seq<RowKey>, saved: seq<bool>, takers: seq<bool>, err: bool)
    : seq<(RowKey, Update)>
    requires stage.Batched() && |keys| == |saved| == |takers|
  {
    AllUpdates(keys, saved, SetStatus(stage.Status()))
    + (if err || w.delivered.None? then [] else AllUpdates(keys, takers, TxUpdate(stage, w.delivered.value)))
  }

  lemma {:induction false} PutAllAppend(rows: map<RowKey, Row>, us: seq<(RowKey, Update)>, vs: seq<(RowKey, Update)>)
    ensures PutAll(PutAll(rows, us), vs) == PutAll(rows, us + vs)
  {
    hide Put;
    if vs == [] {
      assert us + vs == us;
    } else {
      var n := |vs| - 1;
      PutAllAppend(rows, us, vs[..n]);
      assert (us + vs)[..|us + vs| - 1] == us + vs[..n];
    }
  }

  /** IBCV2BatchProcessorMW.Process: every admitted transfer goes through the batch, the others stay as they
      are, and the middleware returns the processed ones before the others. */
  method ProcessBatchMW(opts: Options, stage: Stage, fs: array<Mem>, db: Storage, batch: seq<Ref>, w: World)
    returns (out: seq<Ref>, toProcess: seq<Ref>, err: bool, r: Request)
    requires stage.Batched() && InRange(batch, fs.Length) && Covers(w, fs.Length) && OnceUnlessErrored(fs[..], batch)
    modifies fs, db
    ensures toProcess == BatchNetwork.ToProcess(batch, Verdicts(opts, stage, w, old(fs[..]), batch))
    ensures out == BatchNetwork.Result(batch, Verdicts(opts, stage, w, old(fs[..]), batch))
    ensures InRange(toProcess, fs.Length)
    ensures r == Build(ItemsOf(stage, old(fs[..]), toProcess), |toProcess|)
    ensures var keys, takers := KeysOf(old(fs[..]), toProcess), Takers(w, toProcess, r.listed);
            && err == (w.delivered.None? || w.Errs(|AllUpdates(keys, takers, TxUpdate(stage, w.delivered.value))|))
            && db.rows == PutAll(old(db.rows), BatchUpdates(stage, w, keys, SavedOf(w, toProcess), takers, err))
    ensures forall i :: 0 <= i < |toProcess| ==>
              && Passes(opts, stage, old(fs[..])[toProcess[i]].t, w.later[toProcess[i]])
              && fs[toProcess[i]] == Outcome(stage, w, err, Marked(stage, w.statusSaved[toProcess[i]],
                                                                    old(fs[..])[toProcess[i]]), r.listed[i])
    ensures forall x :: 0 <= x < fs.Length && x !in toProcess ==> fs[x] == old(fs[..])[x]
  {
    hide Passes, Marked, Outcome, Build, ItemOf, OnceUnlessErrored, Verdicts, AllUpdates, PutAll, TxUpdate,
         BatchNetwork.ToProcess, BatchNetwork.NotProcessing;
    ghost var was, table := fs[..], db.rows;
    ToProcessIsAdmitted(opts, stage, w, was, batch);
    var notProcessing;
    toProcess, notProcessing := Select(opts, stage, fs, db, batch, w);
    forall x | 0 <= x < fs.Length
      ensures ItemOf(stage, Entered(opts, stage, w, was[x], x).t) == ItemOf(stage, was[x].t)
      ensures fs[x].t.Key() == was[x].t.Key()
      ensures Passes(opts, stage, was[x].t, w.later[x]) && x in batch ==> fs[x].t.errored == !w.statusSaved[x]
      ensures !Passes(opts, stage, was[x].t, w.later[x]) ==> fs[x] == was[x]
    {
      EnteredItem(opts, stage, w, was[x], x);
    }
    assert ItemsOf(stage, fs[..], toProcess) == ItemsOf(stage, was, toProcess);
    assert KeysOf(fs[..], toProcess) == KeysOf(was, toProcess);
    ghost var marked := fs[..];
    err, r := ProcessSelected(stage, fs, db, toProcess, w);
    out := toProcess + notProcessing;
    assert Recordable(marked, toProcess, r.listed) == Takers(w, toProcess, r.listed);
    ghost var keys, saved := KeysOf(was, toProcess), SavedOf(w, toProcess);
    PutAllAppend(table, AllUpdates(keys, saved, SetStatus(stage.Status())),
                 TxUpdates(stage, marked, toProcess, r.listed, w));
    PutAllAppend(table, AllUpdates(keys, saved, SetStatus(stage.Status())), []);
    PutNone(PutAll(table, AllUpdates(keys, saved, SetStatus(stage.Status()))));
  }

  lemma PutNone(rows: map<RowKey, Row>)
    ensures PutAll(rows, []) == rows
  {
  }

  /** What the world told the stage about transfer x. */
  function AnswerFor(w: World, now: Time, x: Ref, listed: bool, err: bool): Answer
    requires x < |w.later| && x < |w.statusSaved|
  {
    Answer(now, w.later[x], w.statusSaved[x], None, None, None, Unavailable, None, listed, w.delivered, !err)
  }

  /** The row of an admitted transfer after its status update and its tx. */
  function RowAfter(stage: Stage, w: World, err: bool, saved: bool, taker: bool, row: Columns): Columns
    requires stage.Batched()
  {
    var marked := if saved then Updated(row, SetStatus(stage.Status())) else row;
    if err || w.delivered.None? || !taker then marked else Updated(marked, TxUpdate(stage, w.delivered.value))
  }

  /** What `Stages` says of an admitted transfer. */
  function BatchOutcome(opts: Options, stage: Stage, w: World, now: Time, err: bool, f: Flight, x: Ref, listed: bool)
    : Flight
    requires stage.Batched() && x < |w.later| && x < |w.statusSaved| && Passes(opts, stage, f.t, w.later[x])
  {
    Batch(stage, AnswerFor(w, now, x, listed, err), f)
  }

  /** It is what the loops make of the transfer and of its row. */
  lemma OutcomeIsBatch(opts: Options, stage: Stage, w: World, now: Time, err: bool, f: Flight, x: Ref, listed: bool)
    requires stage.Batched() && x < |w.later| && x < |w.statusSaved| && Passes(opts, stage, f.t, w.later[x])
    requires w.delivered.None? ==> err
    ensures var m := Outcome(stage, w, err, Marked(stage, w.statusSaved[x], Mem(f.t, f.trace)), listed);
            BatchOutcome(opts, stage, w, now, err, f, x, listed)
            == Flight(m.t, RowAfter(stage, w, err, w.statusSaved[x], w.statusSaved[x] && listed, f.row), m.trace)
  {
    hide Extends, Consistent;
  }

  /** One of the first n keys that are taken is k. */
  predicate AnyTaken(keys: seq<RowKey>, take: seq<bool>, n: nat, k: RowKey)
    requires n <= |keys| == |take|
  {
    exists i :: 0 <= i < n && keys[i] == k && take[i]
  }

  lemma AnyTakenStep(keys: seq<RowKey>, take: seq<bool>, n: nat, k: RowKey)
    requires 0 < n <= |keys| == |take|
    ensures AnyTaken(keys, take, n, k) <==> AnyTaken(keys, take, n - 1, k) || (keys[n - 1] == k && take[n - 1])
  {
  }

  /** The updates a batch makes: they set columns to given values. */
  predicate Overwrites(u: Update) { u.SetStatus? || u.SetRecvTx? || u.SetTimeoutTx? || u.SetAckTx? }

  lemma OverwritesOnce(c: Columns, u: Update)
    requires Overwrites(u)
    ensures Updated(Updated(c, u), u) == Updated(c, u)
  {
  }

  lemma PutLast(rows: map<RowKey, Row>, us: seq<(RowKey, Update)>, k: RowKey, u: Update)
    ensures PutAll(rows, us + [(k, u)]) == Put(PutAll(rows, us), k, u)
  {
    assert (us + [(k, u)])[..|us|] == us;
  }

  lemma PutAt(rows: map<RowKey, Row>, k: RowKey, u: Update, j: RowKey)
    ensures Put(rows, k, u).Keys == rows.Keys
    ensures j in rows ==>
              Put(rows, k, u)[j] == if j == k then rows[j].(cols := Updated(rows[j].cols, u)) else rows[j]
  {
    hide Updated;
  }

  /** What the n-th of the updates does to the row under key k. */
  lemma PutNext(rows: map<RowKey, Row>, keys: seq<RowKey>, take: seq<bool>, u: Update, n: nat, k: RowKey)
    requires 0 < n <= |keys| == |take|
    ensures var before, after := PutAll(rows, Updates(keys, take, u, n - 1)), PutAll(rows, Updates(keys, take, u, n));
            && after.Keys == before.Keys
            && (k in before ==> after[k] == if keys[n - 1] == k && take[n - 1]
                                            then before[k].(cols := Updated(before[k].cols, u)) else before[k])
  {
    hide Put, PutAll, Updated;
    var us := Updates(keys, take, u, n - 1);
    if take[n - 1] {
      PutLast(rows, us, keys[n - 1], u);
      PutAt(PutAll(rows, us), keys[n - 1], u, k);
    } else {
      assert us + [] == us;
    }
  }

  /** However often a row comes up, it is updated exactly if one of its keys is taken. */
  lemma {:induction false} PutUpdates(rows: map<RowKey, Row>, keys: seq<RowKey>, take: seq<bool>, u: Update, n: nat,
                                      k: RowKey)
    requires n <= |keys| == |take| && Overwrites(u)
    ensures PutAll(rows, Updates(keys, take, u, n)).Keys == rows.Keys
    ensures k in rows ==>
              PutAll(rows, Updates(keys, take, u, n))[k]
              == if AnyTaken(keys, take, n, k) then rows[k].(cols := Updated(rows[k].cols, u)) else rows[k]
  {
    if n == 0 {
      PutNone(rows);
    } else {
      hide Put, PutAll, Updated, Updates, AnyTaken;
      PutUpdates(rows, keys, take, u, n - 1, k);
      PutNext(rows, keys, take, u, n, k);
      AnyTakenStep(keys, take, n, k);
      if k in rows {
        OverwritesOnce(rows[k].cols, u);
      }
    }
  }

  /** Every row of the table after the statements of a batch, whatever transfers share it: marked if the status of
      one of its transfers was saved, and given the tx if one of them takes it. */
  lemma PutBatch(rows: map<RowKey, Row>, stage: Stage, w: World, keys: seq<RowKey>, saved: seq<bool>,
                 takers: seq<bool>, err: bool, k: RowKey)
    requires stage.Batched() && |keys| == |saved| == |takers|
    ensures var after := PutAll(rows, BatchUpdates(stage, w, keys, saved, takers, err));
            && after.Keys == rows.Keys
            && (k in rows ==>
                  after[k] == rows[k].(cols := RowAfter(stage, w, err, AnyTaken(keys, saved, |keys|, k),
                                                        AnyTaken(keys, takers, |keys|, k), rows[k].cols)))
  {
    hide Updated, PutAll, Updates, AnyTaken;
    var status := AllUpdates(keys, saved, SetStatus(stage.Status()));
    PutUpdates(rows, keys, saved, SetStatus(stage.Status()), |keys|, k);
    if err || w.delivered.None? {
      assert status + [] == status;
    } else {
      var u := TxUpdate(stage, w.delivered.value);
      PutAllAppend(rows, status, AllUpdates(keys, takers, u));
      PutUpdates(PutAll(rows, status), keys, takers, u, |keys|, k);
    }
  }

  /** No transfer that shares the row of the i-th writes more to it than the i-th does itself. */
  predicate WritesItsRow(keys: seq<RowKey>, saved: seq<bool>, takers: seq<bool>, i: nat)
    requires i < |keys| == |saved| == |takers|
  {
    forall j :: 0 <= j < |keys| && keys[j] == keys[i] ==> (saved[j] ==> saved[i]) && (takers[j] ==> takers[i])
  }

  lemma OwnWrites(keys: seq<RowKey>, saved: seq<bool>, takers: seq<bool>, i: nat)
    requires i < |keys| == |saved| == |takers| && WritesItsRow(keys, saved, takers, i)
    ensures AnyTaken(keys, saved, |keys|, keys[i]) == saved[i] && AnyTaken(keys, takers, |keys|, keys[i]) == takers[i]
  {
  }

  /** The middleware on the table: an admitted transfer and its row become what `Stages` says, if no other
      transfer of the batch writes more to that row. */
  lemma BatchOnTable(opts: Options, stage: Stage, w: World, now: Time, fs: seq<Mem>, rows: map<RowKey, Row>,
                     refs: seq<Ref>, listed: seq<bool>, err: bool, i: nat)
    requires stage.Batched() && InRange(refs, |fs|) && Covers(w, |fs|) && i < |listed| == |refs|
    requires Passes(opts, stage, fs[refs[i]].t, w.later[refs[i]]) && (w.delivered.None? ==> err)
    requires WritesItsRow(KeysOf(fs, refs), SavedOf(w, refs), Takers(w, refs, listed), i)
    ensures var after := PutAll(rows, BatchUpdates(stage, w, KeysOf(fs, refs), SavedOf(w, refs),
                                                   Takers(w, refs, listed), err));
            var m, x := fs[refs[i]], refs[i];
            var k, out := m.t.Key(), Outcome(stage, w, err, Marked(stage, w.statusSaved[x], m), listed[i]);
            && after.Keys == rows.Keys
            && (k in rows ==>
                  BatchOutcome(opts, stage, w, now, err, Flight(m.t, rows[k].cols, m.trace), x, listed[i])
                  == Flight(out.t, after[k].cols, out.trace))
  {
    hide Passes, BatchOutcome, Outcome, Marked, BatchUpdates, PutAll, RowAfter, AnyTaken, WritesItsRow;
    var m, keys := fs[refs[i]], KeysOf(fs, refs);
    PutBatch(rows, stage, w, keys, SavedOf(w, refs), Takers(w, refs, listed), err, keys[i]);
    OwnWrites(keys, SavedOf(w, refs), Takers(w, refs, listed), i);
    if m.t.Key() in rows {
      OutcomeIsBatch(opts, stage, w, now, err, Flight(m.t, rows[m.t.Key()].cols, m.trace), refs[i], listed[i]);
    }
  }

  /** Seen from one transfer whose guard held at the splitter, splitter and middleware together are the
      batched stage of the pipeline; and it is returned twice exactly if it is admitted and its status is not
      saved. */
  lemma BatchIsStage(opts: Options, stage: Stage, w: World, now: Time, err: bool, f: Flight, x: Ref, listed: bool)
    requires stage.Batched() && x < |w.later| && x < |w.statusSaved|
    requires !f.t.errored && Guard(opts, stage, f.t, now)
    ensures StageStep(opts, stage, AnswerFor(w, now, x, listed, err), f) ==
            if Passes(opts, stage, f.t, w.later[x]) then BatchOutcome(opts, stage, w, now, err, f, x, listed) else f
    ensures VerdictOf(opts, stage, w, f.t, x).StatusFailed? <==>
            Admitted(opts, stage, AnswerFor(w, now, x, listed, err), f.t) && !w.statusSaved[x]
  {
    hide Extends, Consistent, Batch, Guard;
  }

  /** What the middleware leaves in memory of transfer x, whose place in the batch processor's list, if it has
      one, is i. */
  function MemAfter(stage: Stage, w: World, fs: seq<Mem>, listed: seq<bool>, err: bool, x: Ref, i: Option<nat>): Mem
    requires stage.Batched() && x < |fs| && Covers(w, |fs|) && (i.Some? ==> i.value < |listed|)
  {
    if i.None? then fs[x] else Outcome(stage, w, err, Marked(stage, w.statusSaved[x], fs[x]), listed[i.value])
  }

  /** The middleware as a stage: after `ProcessBatchMW`, a transfer that the splitter sent and its row in the table
      are what the pipeline's batched stage makes of them, if no other admitted transfer shares the row. */
  lemma MiddlewareIsStage(opts: Options, stage: Stage, w: World, now: Time, fs: seq<Mem>, rows: map<RowKey, Row>,
                          refs: seq<Ref>, listed: seq<bool>, err: bool, x: Ref, i: Option<nat>)
    requires stage.Batched() && InRange(refs, |fs|) && Covers(w, |fs|) && |listed| == |refs| && x < |fs|
    requires !fs[x].t.errored && Guard(opts, stage, fs[x].t, now) && (w.delivered.None? ==> err)
    requires Passes(opts, stage, fs[x].t, w.later[x]) <==> i.Some?
    requires i.Some? ==> i.value < |refs| && refs[i.value] == x
    requires forall j :: 0 <= j < |refs| && i != Some(j) ==> fs[refs[j]].t.Key() != fs[x].t.Key()
    ensures var after := PutAll(rows, BatchUpdates(stage, w, KeysOf(fs, refs), SavedOf(w, refs),
                                                   Takers(w, refs, listed), err));
            var k, m := fs[x].t.Key(), MemAfter(stage, w, fs, listed, err, x, i);
            && after.Keys == rows.Keys
            && (k in rows ==>
                  StageStep(opts, stage, AnswerFor(w, now, x, i.Some? && listed[i.value], err),
                            Flight(fs[x].t, rows[k].cols, fs[x].trace))
                  == Flight(m.t, after[k].cols, m.trace))
  {
    hide Passes, StageStep, BatchOutcome, Outcome, Marked, BatchUpdates, PutAll, Guard, AnswerFor;
    var k, keys := fs[x].t.Key(), KeysOf(fs, refs);
    if k in rows {
      BatchIsStage(opts, stage, w, now, err, Flight(fs[x].t, rows[k].cols, fs[x].trace), x,
                   i.Some? && listed[i.value]);
    }
    if i.Some? {
      BatchOnTable(opts, stage, w, now, fs, rows, refs, listed, err, i.value);
    } else {
      PutBatch(rows, stage, w, keys, SavedOf(w, refs), Takers(w, refs, listed), err, k);
      assert forall j :: 0 <= j < |keys| ==> keys[j] != k;
    }
  }

  /** The transfers that the splitter sends to the batch, looking at each at its own time. */
  function SentToBatch(opts: Options, stage: Stage, fs: seq<Mem>, nows: seq<Time>): set<Ref>
    requires |nows| == |fs|
  {
    set x: Ref | 0 <= x < |fs| && !fs[x].t.errored && Guard(opts, stage, fs[x].t, nows[x])
  }

  /** The transfers whose status write fails in the middleware. */
  function StatusFails(opts: Options, stage: Stage, fs: seq<Mem>, w: World): set<Ref>
    requires Covers(w, |fs|)
  {
    set x: Ref | 0 <= x < |fs| && VerdictOf(opts, stage, w, fs[x].t, x).StatusFailed?
  }

  /** A batched stage as the pipeline sees it: whatever the interleaving of the network, every transfer that
      goes in comes out once, or twice exactly if it is admitted and its status is not saved; and one that
      the splitter does not send to the batch is left as the stage leaves it. */
  lemma NetworkIsStage(opts: Options, stage: Stage, w: World, fs: seq<Mem>, nows: seq<Time>, maxSize: nat,
                       concurrency: nat, input: seq<Ref>, ns: seq<BatchNetwork.Net>, steps: seq<BatchNetwork.Step>,
                       k: nat, x: Ref, listed: bool, err: bool, row: Columns)
    requires stage.Batched() && Covers(w, |fs|) && |nows| == |fs| && x < |fs|
    requires BatchNetwork.IsRun(maxSize, concurrency, input, ns, steps) && k < |ns| && !ns[k].open
    requires forall i :: 0 <= i < |steps| ==>
               BatchNetwork.Decided(ns[i], steps[i], SentToBatch(opts, stage, fs, nows),
                                    StatusFails(opts, stage, fs, w))
    ensures var a := AnswerFor(w, nows[x], x, listed, err);
            && BatchNetwork.Count(ns[k].out, x)
               == (if Admitted(opts, stage, a, fs[x].t) && !a.statusSaved then 2 else 1) * BatchNetwork.Count(input, x)
            && (x !in SentToBatch(opts, stage, fs, nows) ==>
                  StageStep(opts, stage, a, Flight(fs[x].t, row, fs[x].trace)) == Flight(fs[x].t, row, fs[x].trace))
  {
    hide Extends, Consistent, Batch, Guard, BatchNetwork.IsRun, BatchNetwork.Decided;
    BatchNetwork.OutputCounts(maxSize, concurrency, input, ns, steps, SentToBatch(opts, stage, fs, nows),
                              StatusFails(opts, stage, fs, w), k, x);
  }

  /** The packet sequences of the listed transfers among the first n, in order. */
  function ListedSequences(fs: seq<Mem>, refs: seq<Ref>, listed: seq<bool>, n: nat): seq<nat>
    requires InRange(refs, |fs|) && n <= |refs| && n <= |listed|
  {
    if n == 0 then []
    else ListedSequences(fs, refs, listed, n - 1)
         + if listed[n - 1] then [ToUInt32(fs[refs[n - 1]].t.packet.sequence)] else []
  }

  lemma {:induction false} ChosenAreListed(stage: Stage, fs: seq<Mem>, refs: seq<Ref>, listed: seq<bool>, n: nat)
    requires InRange(refs, |fs|) && n <= |refs| && n <= |listed|
    ensures Chosen(ItemsOf(stage, fs, refs), listed, n) == ListedSequences(fs, refs, listed, n)
  {
    if n != 0 {
      ChosenAreListed(stage, fs, refs, listed, n - 1);
    }
  }

  /** The request for a batch lists, in order, exactly the packet sequences of the transfers that are not errored by
      the loop. */
  lemma RequestListsSequences(stage: Stage, fs: seq<Mem>, refs: seq<Ref>)
    requires InRange(refs, |fs|)
    ensures var r := Build(ItemsOf(stage, fs, refs), |refs|);
            r.sequences == ListedSequences(fs, refs, r.listed, |refs|)
  {
    hide Build;
    SequencesAreListed(ItemsOf(stage, fs, refs), |refs|);
    ChosenAreListed(stage, fs, refs, Build(ItemsOf(stage, fs, refs), |refs|).listed, |refs|);
  }

  /** The request for an ack batch lists exactly the transfers whose write ack hash decodes, and names the tx of each
      of them. */
  lemma AckRequestNames(opts: Options, w: World, fs: seq<Mem>, refs: seq<Ref>, i: nat)
    requires InRange(refs, |fs|) && Covers(w, |fs|) && i < |refs|
    requires forall i :: 0 <= i < |refs| ==> Passes(opts, DeliverAck, fs[refs[i]].t, w.later[refs[i]])
    ensures var r, hash := Build(ItemsOf(DeliverAck, fs, refs), |refs|), fs[refs[i]].t.cols.writeAck.hash;
            && hash.Some? && (r.listed[i] <==> TxID(hash.value).Some?)
            && (r.listed[i] ==> TxID(hash.value).value in r.txIDs)
  {
    hide Build, TxID, Passes;
    var items := ItemsOf(DeliverAck, fs, refs);
    AckItemsRemember(opts, w, fs, refs);
    AckRequest(items, |refs|);
    assert items[i].hash.Some?;
    if Build(items, |refs|).listed[i] {
      AckRequestCovers(items, i);
    }
  }

  /** The request for a recv or timeout batch of one source chain lists exactly the transfers whose source tx hash
      decodes, or is taken for the chain, and names the tx of each of the former. */
  lemma SourceRequestNames(stage: Stage, fs: seq<Mem>, refs: seq<Ref>, chain: string, i: nat)
    requires !stage.DeliverAck? && InRange(refs, |fs|) && i < |refs|
    requires forall i :: 0 <= i < |refs| ==> fs[refs[i]].t.packet.sourceChainID == chain
    ensures var r, hash := Build(ItemsOf(stage, fs, refs), |refs|), fs[refs[i]].t.packet.sourceTxHash;
            var taken := hash == chain && exists j :: 0 <= j < i && TxID(fs[refs[j]].t.packet.sourceTxHash).Some?;
            && (r.listed[i] <==> TxID(hash).Some? || taken)
            && (r.listed[i] && !taken ==> TxID(hash).value in r.txIDs)
  {
    hide Build, TxID;
    var items := ItemsOf(stage, fs, refs);
    SourceItemsRememberChain(stage, fs, refs, chain);
    SourceRequest(items, chain, |refs|);
    assert forall j :: 0 <= j < |refs| ==> items[j].hash == Some(fs[refs[j]].t.packet.sourceTxHash);
    assert forall j :: 0 <= j < |refs| ==> Decodable(items[j]) == TxID(fs[refs[j]].t.packet.sourceTxHash).Some?;
    if Build(items, |refs|).listed[i] && !TakenForChain(items, chain, i) {
      SourceRequestCovers(items, chain, i);
    }
  }

  /** In an ack batch every item has a hash and is remembered by it. */
  lemma AckItemsRemember(opts: Options, w: World, fs: seq<Mem>, refs: seq<Ref>)
    requires InRange(refs, |fs|) && Covers(w, |fs|)
    requires forall i :: 0 <= i < |refs| ==> Passes(opts, DeliverAck, fs[refs[i]].t, w.later[refs[i]])
    ensures RemembersHash(ItemsOf(DeliverAck, fs, refs))
    ensures forall i :: 0 <= i < |refs| ==> ItemsOf(DeliverAck, fs, refs)[i].hash.Some?
  {
    forall i | 0 <= i < |refs| ensures ItemOf(DeliverAck, fs[refs[i]].t).hash.Some? {
      assert Passes(opts, DeliverAck, fs[refs[i]].t, w.later[refs[i]]);
    }
  }

  /** In a recv or timeout batch every item is remembered by the source chain of the pipeline. */
  lemma SourceItemsRememberChain(stage: Stage, fs: seq<Mem>, refs: seq<Ref>, chain: string)
    requires !stage.DeliverAck? && InRange(refs, |fs|)
    requires forall i :: 0 <= i < |refs| ==> fs[refs[i]].t.packet.sourceChainID == chain
    ensures RemembersChain(ItemsOf(stage, fs, refs), chain)
  {
    forall i | 0 <= i < |refs| ensures ItemOf(stage, fs[refs[i]].t).mark == chain {
      assert fs[refs[i]].t.packet.sourceChainID == chain;
    }
  }
}
