/** ConditionallyBatchProcess: a splitter, the collector, a buffering loop, batch workers and a merger,
    joined by channels and running concurrently. A step is one goroutine's next channel operation. */
module BatchNetwork {
  import opened Transfers

  /** Transfers are moved around by reference; an id stands for one. */
  type Ref = nat

  /** What the batch middleware decided about an entry of its batch. A failed status write lists the
      entry both among the processed and among the skipped. */
  datatype Verdict = Skipped | Processed | StatusFailed

  function ToProcess(batch: seq<Ref>, verdicts: seq<Verdict>): seq<Ref>
    requires |verdicts| == |batch|
  {
    if batch == [] then []
    else
      var n := |batch| - 1;
      ToProcess(batch[..n], verdicts[..n]) + (if verdicts[n].Skipped? then [] else [batch[n]])
  }

  function NotProcessing(batch: seq<Ref>, verdicts: seq<Verdict>): seq<Ref>
    requires |verdicts| == |batch|
  {
    if batch == [] then []
    else
      var n := |batch| - 1;
      NotProcessing(batch[..n], verdicts[..n]) + (if verdicts[n].Processed? then [] else [batch[n]])
  }

  /** The entries whose status write failed. */
  function Failed(batch: seq<Ref>, verdicts: seq<Verdict>): seq<Ref>
    requires |verdicts| == |batch|
  {
    if batch == [] then []
    else
      var n := |batch| - 1;
      Failed(batch[..n], verdicts[..n]) + (if verdicts[n].StatusFailed? then [batch[n]] else [])
  }

  /** What the middleware returns for a batch, in order. */
  function Result(batch: seq<Ref>, verdicts: seq<Verdict>): seq<Ref>
    requires |verdicts| == |batch|
  {
    ToProcess(batch, verdicts) + NotProcessing(batch, verdicts)
  }

  function Count(s: seq<Ref>, x: Ref): nat { multiset(s)[x] }

  lemma CountAppend(s: seq<Ref>, t: seq<Ref>, x: Ref)
    ensures Count(s + t, x) == Count(s, x) + Count(t, x)
  {
  }

  /** A batch comes out whole, plus one more of each entry whose status write failed. */
  lemma {:induction false} ResultCounts(batch: seq<Ref>, verdicts: seq<Verdict>, x: Ref)
    requires |verdicts| == |batch|
    ensures Count(ToProcess(batch, verdicts), x) + Count(NotProcessing(batch, verdicts), x)
            == Count(batch, x) + Count(Failed(batch, verdicts), x)
    ensures |batch| <= |Result(batch, verdicts)| <= 2 * |batch|
  {
    hide Count;
    if batch != [] {
      var n := |batch| - 1;
      ResultCounts(batch[..n], verdicts[..n], x);
      assert batch == batch[..n] + [batch[n]];
      CountAppend(batch[..n], [batch[n]], x);
      var one := if verdicts[n].Skipped? then [] else [batch[n]];
      CountAppend(ToProcess(batch[..n], verdicts[..n]), one, x);
      var two := if verdicts[n].Processed? then [] else [batch[n]];
      CountAppend(NotProcessing(batch[..n], verdicts[..n]), two, x);
      var three := if verdicts[n].StatusFailed? then [batch[n]] else [];
      CountAppend(Failed(batch[..n], verdicts[..n]), three, x);
      CountNone(x);
    }
  }

  lemma CountNone(x: Ref)
    ensures Count([], x) == 0
  {
  }

  lemma ResultConserves(batch: seq<Ref>, verdicts: seq<Verdict>)
    requires |verdicts| == |batch|
    ensures multiset(Result(batch, verdicts)) == multiset(batch) + multiset(Failed(batch, verdicts))
  {
    hide ToProcess, NotProcessing, Failed;
    var all, parts := multiset(Result(batch, verdicts)), multiset(batch) + multiset(Failed(batch, verdicts));
    forall x ensures all[x] == parts[x] {
      ResultCounts(batch, verdicts, x);
    }
  }

  datatype Held = Nothing | ToOut(x: Ref) | ToBatch(x: Ref)

  datatype Worker = Idle | Busy(batch: seq<Ref>) | Done(result: seq<Ref>)

  datatype Net = Net(
    input: seq<Ref>,               // what the input channel still holds before it is closed
    splitter: Held,                // what the splitter is about to send
    splitting: bool,               // it has not closed toBatch yet
    collecting: seq<Ref>,          // the collector's current batch
    collector: bool,               // it has not closed batches yet
    forwarding: Option<seq<Ref>>,  // the batch the buffering loop is about to send
    buffering: bool,               // it has not closed bufferedBatches yet
    buffered: seq<seq<Ref>>,
    workers: seq<Worker>,
    working: bool,                 // the results channel is open
    merging: seq<Ref>,             // what the merger still has to send of a batch result
    out: seq<Ref>,                 // everything sent to the output channel so far
    open: bool,                    // the output channel is open
    extra: multiset<Ref>)          // the second copies made so far

  datatype Step =
    | Take(batch: bool)            // the splitter reads an input and looks at its error and its guard
    | SendOut
    | SendBatch
    | CloseToBatch
    | Emit                         // the batch is full, has waited long enough, or toBatch is closed
    | CloseBatches
    | Forward
    | CloseBuffered
    | Start(i: nat)
    | Finish(i: nat, verdicts: seq<Verdict>)
    | Give(i: nat)
    | CloseResults
    | MergeSend
    | CloseOut

  const BUFFER_SIZE: nat := 1000

  /** A goroutine can make its next operation. Sending on the output channel does not wait for the
      channel to be open: in Go it would panic. */
  predicate Enabled(maxSize: nat, n: Net, step: Step) {
    match step
    case Take(_) => n.input != [] && n.splitter.Nothing? && n.splitting
    case SendOut => n.splitter.ToOut?
    case SendBatch => n.splitter.ToBatch? && |n.collecting| < maxSize
    case CloseToBatch => n.input == [] && n.splitter.Nothing? && n.splitting
    case Emit => n.collecting != [] && n.forwarding.None?
    case CloseBatches => !n.splitting && n.collecting == [] && n.collector
    case Forward => n.forwarding.Some? && |n.buffered| < BUFFER_SIZE
    case CloseBuffered => !n.collector && n.forwarding.None? && n.buffering
    case Start(i) => i < |n.workers| && n.workers[i].Idle? && n.buffered != []
    case Finish(i, verdicts) => i < |n.workers| && n.workers[i].Busy? && |verdicts| == |n.workers[i].batch|
    case Give(i) => i < |n.workers| && n.workers[i].Done? && n.merging == []
    case CloseResults => !n.buffering && n.buffered == [] && n.working && AllIdle(n.workers)
    case MergeSend => n.merging != []
    case CloseOut => !n.working && n.merging == [] && n.open
  }

  predicate AllIdle(ws: seq<Worker>) { forall i :: 0 <= i < |ws| ==> ws[i].Idle? }

  function Apply(maxSize: nat, n: Net, step: Step): Net
    requires Enabled(maxSize, n, step)
  {
    match step
    case Take(batch) =>
      n.(input := n.input[1..], splitter := if batch then ToBatch(n.input[0]) else ToOut(n.input[0]))
    case SendOut => n.(splitter := Nothing, out := n.out + [n.splitter.x])
    case SendBatch => n.(splitter := Nothing, collecting := n.collecting + [n.splitter.x])
    case CloseToBatch => n.(splitting := false)
    case Emit => n.(collecting := [], forwarding := Some(n.collecting))
    case CloseBatches => n.(collector := false)
    case Forward => n.(forwarding := None, buffered := n.buffered + [n.forwarding.value])
    case CloseBuffered => n.(buffering := false)
    case Start(i) => n.(buffered := n.buffered[1..], workers := n.workers[i := Busy(n.buffered[0])])
    case Finish(i, verdicts) =>
      var batch := n.workers[i].batch;
      n.(workers := n.workers[i := Done(Result(batch, verdicts))],
         extra := n.extra + multiset(Failed(batch, verdicts)))
    case Give(i) => n.(merging := n.workers[i].result, workers := n.workers[i := Idle])
    case CloseResults => n.(working := false)
    case MergeSend => n.(merging := n.merging[1..], out := n.out + [n.merging[0]])
    case CloseOut => n.(open := false)
  }

  /** The operation sends on the output channel. */
  predicate Sends(step: Step) { step.SendOut? || step.MergeSend? }

  predicate Initial(n: Net, input: seq<Ref>, concurrency: nat) {
    n == Net(input, Nothing, true, [], true, None, true, [], seq(concurrency, _ => Idle), true, [], [], true,
             multiset{})
  }

  predicate IsRun(maxSize: nat, concurrency: nat, input: seq<Ref>, ns: seq<Net>, steps: seq<Step>) {
    && |ns| == |steps| + 1 && Initial(ns[0], input, concurrency)
    && forall i :: 0 <= i < |steps| ==>
         Enabled(maxSize, ns[i], steps[i]) && ns[i + 1] == Apply(maxSize, ns[i], steps[i])
  }

  function BatchCount(b: Option<seq<Ref>>, x: Ref): nat { if b.Some? then Count(b.value, x) else 0 }

  function BufferCount(batches: seq<seq<Ref>>, x: Ref): nat {
    if batches == [] then 0 else Count(batches[0], x) + BufferCount(batches[1..], x)
  }

  function WorkerCount(w: Worker, x: Ref): nat {
    match w
    case Idle => 0
    case Busy(b) => Count(b, x)
    case Done(r) => Count(r, x)
  }

  function WorkersCount(ws: seq<Worker>, x: Ref): nat {
    if ws == [] then 0 else WorkerCount(ws[0], x) + WorkersCount(ws[1..], x)
  }

  /** How often a transfer is on its way to the output. */
  function InTransit(n: Net, x: Ref): nat {
    Count(n.input, x) + (if !n.splitter.Nothing? && n.splitter.x == x then 1 else 0) + Count(n.collecting, x)
    + BatchCount(n.forwarding, x) + BufferCount(n.buffered, x) + WorkersCount(n.workers, x) + Count(n.merging, x)
  }

  /** Each goroutine closes its channel only after everything before it is closed and drained. */
  predicate ClosedInOrder(n: Net) {
    && (!n.splitting ==> n.input == [] && n.splitter.Nothing?)
    && (!n.collector ==> !n.splitting && n.collecting == [])
    && (!n.buffering ==> !n.collector && n.forwarding.None?)
    && (!n.working ==> !n.buffering && n.buffered == [] && AllIdle(n.workers))
    && (!n.open ==> !n.working && n.merging == [])
  }

  /** Nothing is lost, and nothing is added but the second copies. */
  predicate Conserves(n: Net, input: seq<Ref>, x: Ref) {
    Count(n.out, x) + InTransit(n, x) == Count(input, x) + n.extra[x]
  }

  lemma {:induction false} BufferAppend(batches: seq<seq<Ref>>, b: seq<Ref>, x: Ref)
    ensures BufferCount(batches + [b], x) == BufferCount(batches, x) + Count(b, x)
  {
    if batches == [] {
      assert [b] == [] + [b];
    } else {
      BufferAppend(batches[1..], b, x);
      assert (batches + [b])[1..] == batches[1..] + [b];
    }
  }

  lemma {:induction false} WorkersUpdate(ws: seq<Worker>, i: nat, w: Worker, x: Ref)
    requires i < |ws|
    ensures WorkersCount(ws[i := w], x) + WorkerCount(ws[i], x) == WorkersCount(ws, x) + WorkerCount(w, x)
  {
    if i > 0 {
      WorkersUpdate(ws[1..], i - 1, w, x);
      assert ws[i := w][1..] == ws[1..][i - 1 := w];
    } else {
      assert ws[i := w][1..] == ws[1..];
    }
  }

  lemma {:induction false} IdleCount(ws: seq<Worker>, x: Ref)
    requires AllIdle(ws)
    ensures WorkersCount(ws, x) == 0
  {
    if ws != [] {
      IdleCount(ws[1..], x);
    }
  }

  lemma CountHead(s: seq<Ref>, x: Ref)
    requires s != []
    ensures Count(s, x) == (if s[0] == x then 1 else 0) + Count(s[1..], x)
  {
    assert s == [s[0]] + s[1..];
  }

  lemma CountLast(s: seq<Ref>, y: Ref, x: Ref)
    ensures Count(s + [y], x) == Count(s, x) + (if y == x then 1 else 0)
  {
  }

  lemma ConservesStep(maxSize: nat, n: Net, step: Step, input: seq<Ref>, x: Ref)
    requires Enabled(maxSize, n, step) && Conserves(n, input, x)
    ensures Conserves(Apply(maxSize, n, step), input, x)
  {
    hide Count, Result, Failed;
    CountNone(x);
    match step
    case Take(_) => CountHead(n.input, x);
    case SendOut => CountLast(n.out, n.splitter.x, x);
    case SendBatch => CountLast(n.collecting, n.splitter.x, x);
    case Forward => BufferAppend(n.buffered, n.forwarding.value, x);
    case Start(i) => WorkersUpdate(n.workers, i, Busy(n.buffered[0]), x);
    case Finish(i, verdicts) => ConservesFinish(n, i, verdicts, x);
    case Give(i) => WorkersUpdate(n.workers, i, Idle, x);
    case MergeSend =>
      CountHead(n.merging, x);
      CountLast(n.out, n.merging[0], x);
    case _ =>
  }

  lemma ConservesFinish(n: Net, i: nat, verdicts: seq<Verdict>, x: Ref)
    requires i < |n.workers| && n.workers[i].Busy? && |verdicts| == |n.workers[i].batch|
    ensures var batch := n.workers[i].batch;
      WorkersCount(n.workers[i := Done(Result(batch, verdicts))], x)
      == WorkersCount(n.workers, x) + multiset(Failed(batch, verdicts))[x]
  {
    hide ToProcess, NotProcessing, Failed;
    var batch := n.workers[i].batch;
    ResultCounts(batch, verdicts, x);
    WorkersUpdate(n.workers, i, Done(Result(batch, verdicts)), x);
  }

  /** The closing order is kept, and no operation ever sends on the closed output channel. */
  lemma ClosedInOrderStep(maxSize: nat, n: Net, step: Step)
    requires Enabled(maxSize, n, step) && ClosedInOrder(n)
    ensures ClosedInOrder(Apply(maxSize, n, step))
    ensures Sends(step) ==> n.open
  {
  }

  /** In every state of every run: nothing lost or added but second copies, channels closed in order,
      and no send on the closed output channel. */
  lemma {:induction false} NetworkRun(maxSize: nat, concurrency: nat, input: seq<Ref>, ns: seq<Net>, steps: seq<Step>,
                                      k: nat, x: Ref)
    requires IsRun(maxSize, concurrency, input, ns, steps) && k < |ns|
    ensures Conserves(ns[k], input, x) && ClosedInOrder(ns[k])
    ensures k < |steps| && Sends(steps[k]) ==> ns[k].open
  {
    hide Apply, Conserves, ClosedInOrder;
    if k == 0 {
      InitiallyFine(ns[0], input, concurrency, x);
    } else {
      NetworkRun(maxSize, concurrency, input, ns, steps, k - 1, x);
      ConservesStep(maxSize, ns[k - 1], steps[k - 1], input, x);
      ClosedInOrderStep(maxSize, ns[k - 1], steps[k - 1]);
    }
    if k < |steps| {
      ClosedInOrderStep(maxSize, ns[k], steps[k]);
    }
  }

  lemma InitiallyFine(n: Net, input: seq<Ref>, concurrency: nat, x: Ref)
    requires Initial(n, input, concurrency)
    ensures Conserves(n, input, x) && ClosedInOrder(n)
  {
    IdleCount(n.workers, x);
  }

  lemma Drained(n: Net, input: seq<Ref>, x: Ref)
    requires Conserves(n, input, x) && ClosedInOrder(n) && !n.open
    ensures Count(n.out, x) == Count(input, x) + n.extra[x]
  {
    IdleCount(n.workers, x);
  }

  /** For every interleaving: once the output channel is closed, what came out is what went in plus one
      more of each transfer whose status write failed; so exactly what went in if none did. */
  lemma OutputIsInput(maxSize: nat, concurrency: nat, input: seq<Ref>, ns: seq<Net>, steps: seq<Step>, k: nat)
    requires IsRun(maxSize, concurrency, input, ns, steps) && k < |ns| && !ns[k].open
    ensures multiset(ns[k].out) == multiset(input) + ns[k].extra
  {
    hide IsRun, Conserves, ClosedInOrder;
    var all, parts := multiset(ns[k].out), multiset(input) + ns[k].extra;
    forall x ensures all[x] == parts[x] {
      NetworkRun(maxSize, concurrency, input, ns, steps, k, x);
      Drained(ns[k], input, x);
    }
  }

  /** The second copies are those of the status failures: none where every status write succeeds. */
  lemma {:induction false} NoFailureNoExtra(maxSize: nat, concurrency: nat, input: seq<Ref>, ns: seq<Net>,
                                            steps: seq<Step>, k: nat)
    requires IsRun(maxSize, concurrency, input, ns, steps) && k < |ns|
    requires forall i :: 0 <= i < |steps| && steps[i].Finish? ==> StatusFailed !in steps[i].verdicts
    ensures ns[k].extra == multiset{}
  {
    hide Apply, Enabled;
    if k > 0 {
      NoFailureNoExtra(maxSize, concurrency, input, ns, steps, k - 1);
      ExtraStep(maxSize, ns[k - 1], steps[k - 1]);
      if steps[k - 1].Finish? {
        NoneFailed(ns[k - 1].workers[steps[k - 1].i].batch, steps[k - 1].verdicts);
      }
    }
  }

  lemma SameWorkers(maxSize: nat, n: Net, step: Step)
    requires Enabled(maxSize, n, step)
    ensures |Apply(maxSize, n, step).workers| == |n.workers|
  {
    hide Result, Failed;
  }

  /** A step adds second copies only of status failures. */
  lemma ExtraStep(maxSize: nat, n: Net, step: Step)
    requires Enabled(maxSize, n, step)
    ensures step.Finish? ==>
              step.i < |n.workers| && n.workers[step.i].Busy? && |step.verdicts| == |n.workers[step.i].batch|
    ensures Apply(maxSize, n, step).extra
            == if step.Finish? then n.extra + multiset(Failed(n.workers[step.i].batch, step.verdicts)) else n.extra
  {
    hide Result, Failed;
  }

  lemma {:induction false} NoneFailed(batch: seq<Ref>, verdicts: seq<Verdict>)
    requires |verdicts| == |batch| && StatusFailed !in verdicts
    ensures Failed(batch, verdicts) == []
  {
    if batch != [] {
      NoneFailed(batch[..|batch| - 1], verdicts[..|batch| - 1]);
    }
  }

  /** With at least one worker and a positive batch size, the network never deadlocks: as long as
      the output channel is open, some goroutine can go on. */
  lemma NeverStuck(maxSize: nat, n: Net) returns (step: Step)
    requires ClosedInOrder(n) && n.open && n.workers != [] && maxSize > 0
    ensures Enabled(maxSize, n, step)
  {
    if n.merging != [] { return MergeSend; }
    if i: nat :| i < |n.workers| && n.workers[i].Done? { return Give(i); }
    if i: nat :| i < |n.workers| && n.workers[i].Busy? {
      return Finish(i, seq(|n.workers[i].batch|, _ => Processed));
    }
    if n.buffered != [] { return Start(0); }
    if n.forwarding.Some? { return Forward; }
    if n.collecting != [] { return Emit; }
    match n.splitter {
      case ToOut(_) => return SendOut;
      case ToBatch(_) => return SendBatch;
      case Nothing =>
    }
    step := if n.input != [] && n.splitting then Take(true)
            else if n.splitting then CloseToBatch
            else if n.collector then CloseBatches
            else if n.buffering then CloseBuffered
            else if n.working then CloseResults
            else CloseOut;
  }

  /** Every batch on its way holds something. */
  predicate NoEmptyBatch(n: Net) {
    && (n.forwarding.Some? ==> n.forwarding.value != [])
    && (forall i :: 0 <= i < |n.buffered| ==> n.buffered[i] != [])
    && (forall i :: 0 <= i < |n.workers| && n.workers[i].Busy? ==> n.workers[i].batch != [])
  }

  function Flag(b: bool): nat { if b then 1 else 0 }

  function BufferWork(batches: seq<seq<Ref>>): nat {
    if batches == [] then 0 else 8 * |batches[0]| + BufferWork(batches[1..])
  }

  function WorkerWork(w: Worker): nat {
    match w
    case Idle => 0
    case Busy(b) => 7 * |b|
    case Done(r) => 2 * |r| + 1
  }

  function WorkersWork(ws: seq<Worker>): nat {
    if ws == [] then 0 else WorkerWork(ws[0]) + WorkersWork(ws[1..])
  }

  /** A bound on the operations still to come. */
  function Work(n: Net): nat {
    MovesLeft(n) + ClosesLeft(n)
  }

  function MovesLeft(n: Net): nat {
    12 * |n.input| + 11 * Flag(!n.splitter.Nothing?) + 10 * |n.collecting|
    + (if n.forwarding.Some? then 9 * |n.forwarding.value| else 0)
    + BufferWork(n.buffered) + WorkersWork(n.workers) + |n.merging|
  }

  function ClosesLeft(n: Net): nat {
    Flag(n.splitting) + Flag(n.collector) + Flag(n.buffering) + Flag(n.working) + Flag(n.open)
  }

  lemma {:induction false} BufferWorkAppend(batches: seq<seq<Ref>>, b: seq<Ref>)
    ensures BufferWork(batches + [b]) == BufferWork(batches) + 8 * |b|
  {
    if batches == [] {
      assert [b] == [] + [b];
    } else {
      BufferWorkAppend(batches[1..], b);
      assert (batches + [b])[1..] == batches[1..] + [b];
    }
  }

  lemma {:induction false} WorkersWorkUpdate(ws: seq<Worker>, i: nat, w: Worker)
    requires i < |ws|
    ensures WorkersWork(ws[i := w]) + WorkerWork(ws[i]) == WorkersWork(ws) + WorkerWork(w)
  {
    if i > 0 {
      WorkersWorkUpdate(ws[1..], i - 1, w);
      assert ws[i := w][1..] == ws[1..][i - 1 := w];
    } else {
      assert ws[i := w][1..] == ws[1..];
    }
  }

  predicate Closes(step: Step) {
    step.CloseToBatch? || step.CloseBatches? || step.CloseBuffered? || step.CloseResults? || step.CloseOut?
  }

  lemma CloseStep(maxSize: nat, n: Net, step: Step)
    requires Enabled(maxSize, n, step)
    ensures if Closes(step) then ClosesLeft(Apply(maxSize, n, step)) < ClosesLeft(n)
            else ClosesLeft(Apply(maxSize, n, step)) == ClosesLeft(n)
    ensures Closes(step) ==> MovesLeft(Apply(maxSize, n, step)) == MovesLeft(n)
  {
    hide Result, Failed, BufferWork, WorkersWork, AllIdle;
  }

  lemma MoveStep(maxSize: nat, n: Net, step: Step)
    requires Enabled(maxSize, n, step) && NoEmptyBatch(n) && !Closes(step)
    ensures MovesLeft(Apply(maxSize, n, step)) < MovesLeft(n)
  {
    hide Result, Failed, BufferWork, WorkersWork, NoEmptyBatch, AllIdle;
    match step
    case Forward => ForwardWork(n);
    case Start(i) => StartWork(n, i);
    case Finish(i, verdicts) => FinishWork(n, i, verdicts);
    case Give(i) => GiveWork(n, i);
    case _ =>
  }

  lemma WorkStep(maxSize: nat, n: Net, step: Step)
    requires Enabled(maxSize, n, step) && NoEmptyBatch(n)
    ensures Work(Apply(maxSize, n, step)) < Work(n)
  {
    hide Apply, Enabled, MovesLeft, ClosesLeft;
    CloseStep(maxSize, n, step);
    if !Closes(step) { MoveStep(maxSize, n, step); }
  }

  lemma ForwardWork(n: Net)
    requires NoEmptyBatch(n) && n.forwarding.Some?
    ensures n.forwarding.value != []
    ensures BufferWork(n.buffered + [n.forwarding.value]) == BufferWork(n.buffered) + 8 * |n.forwarding.value|
  {
    BufferWorkAppend(n.buffered, n.forwarding.value);
  }

  lemma StartWork(n: Net, i: nat)
    requires NoEmptyBatch(n) && n.buffered != [] && i < |n.workers| && n.workers[i].Idle?
    ensures BufferWork(n.buffered[1..]) + WorkersWork(n.workers[i := Busy(n.buffered[0])])
            < BufferWork(n.buffered) + WorkersWork(n.workers)
  {
    WorkersWorkUpdate(n.workers, i, Busy(n.buffered[0]));
  }

  lemma FinishWork(n: Net, i: nat, verdicts: seq<Verdict>)
    requires NoEmptyBatch(n) && i < |n.workers| && n.workers[i].Busy? && |verdicts| == |n.workers[i].batch|
    ensures WorkersWork(n.workers[i := Done(Result(n.workers[i].batch, verdicts))]) < WorkersWork(n.workers)
  {
    hide Result, Failed;
    ResultCounts(n.workers[i].batch, verdicts, 0);
    WorkersWorkUpdate(n.workers, i, Done(Result(n.workers[i].batch, verdicts)));
  }

  lemma GiveWork(n: Net, i: nat)
    requires i < |n.workers| && n.workers[i].Done?
    ensures WorkersWork(n.workers[i := Idle]) + |n.workers[i].result| < WorkersWork(n.workers)
  {
    WorkersWorkUpdate(n.workers, i, Idle);
  }

  lemma NoEmptyBatchStep(maxSize: nat, n: Net, step: Step)
    requires Enabled(maxSize, n, step) && NoEmptyBatch(n)
    ensures NoEmptyBatch(Apply(maxSize, n, step))
  {
    hide Result, Failed;
  }

  /** Every run is finite: it has at most as many operations as there is work at the start. With
      `NeverStuck` and `OutputIsInput`, every run that goes on as long as it can closes the output channel,
      with everything sent. */
  lemma {:induction false} RunsAreBounded(maxSize: nat, concurrency: nat, input: seq<Ref>, ns: seq<Net>,
                                          steps: seq<Step>, k: nat)
    requires IsRun(maxSize, concurrency, input, ns, steps) && k < |ns|
    ensures NoEmptyBatch(ns[k]) && Work(ns[k]) + k <= Work(ns[0])
  {
    hide Apply, Work;
    if k > 0 {
      RunsAreBounded(maxSize, concurrency, input, ns, steps, k - 1);
      WorkStep(maxSize, ns[k - 1], steps[k - 1]);
      NoEmptyBatchStep(maxSize, ns[k - 1], steps[k - 1]);
    }
  }

  lemma {:induction false} WorkersStay(maxSize: nat, concurrency: nat, input: seq<Ref>, ns: seq<Net>,
                                       steps: seq<Step>, k: nat)
    requires IsRun(maxSize, concurrency, input, ns, steps) && k < |ns|
    ensures |ns[k].workers| == concurrency
  {
    hide Apply, Enabled;
    if k > 0 {
      WorkersStay(maxSize, concurrency, input, ns, steps, k - 1);
      SameWorkers(maxSize, ns[k - 1], steps[k - 1]);
    }
  }

  /** A run that can go no further has closed the output channel, and has sent everything. */
  lemma MaximalRunDelivers(maxSize: nat, concurrency: nat, input: seq<Ref>, ns: seq<Net>, steps: seq<Step>)
    requires maxSize > 0 && concurrency > 0 && IsRun(maxSize, concurrency, input, ns, steps)
    requires forall step: Step :: !Enabled(maxSize, ns[|steps|], step)
    ensures !ns[|steps|].open && multiset(ns[|steps|].out) == multiset(input) + ns[|steps|].extra
    ensures |steps| <= Work(ns[0])
  {
    hide Enabled, Apply, Work;
    NetworkRun(maxSize, concurrency, input, ns, steps, |steps|, 0);
    WorkersStay(maxSize, concurrency, input, ns, steps, |steps|);
    RunsAreBounded(maxSize, concurrency, input, ns, steps, |steps|);
    if ns[|steps|].open {
      var step := NeverStuck(maxSize, ns[|steps|]);
      assert false;
    }
    OutputIsInput(maxSize, concurrency, input, ns, steps, |steps|);
  }

  /** The splitter sends exactly these transfers to the batch, and exactly these status writes fail. */
  predicate Decided(n: Net, step: Step, toBatch: set<Ref>, failing: set<Ref>) {
    match step
    case Take(batch) => n.input != [] ==> (batch <==> n.input[0] in toBatch)
    case Finish(i, verdicts) =>
      i < |n.workers| && n.workers[i].Busy? && |verdicts| == |n.workers[i].batch| ==>
        forall j :: 0 <= j < |verdicts| ==> (verdicts[j].StatusFailed? <==> n.workers[i].batch[j] in failing)
    case _ => true
  }

  function BusyCount(w: Worker, x: Ref): nat { if w.Busy? then Count(w.batch, x) else 0 }

  function AllBusyCount(ws: seq<Worker>, x: Ref): nat {
    if ws == [] then 0 else BusyCount(ws[0], x) + AllBusyCount(ws[1..], x)
  }

  lemma {:induction false} BusyUpdate(ws: seq<Worker>, i: nat, w: Worker, x: Ref)
    requires i < |ws|
    ensures AllBusyCount(ws[i := w], x) + BusyCount(ws[i], x) == AllBusyCount(ws, x) + BusyCount(w, x)
  {
    hide Count;
    if i > 0 {
      BusyUpdate(ws[1..], i - 1, w, x);
      assert ws[i := w][1..] == ws[1..][i - 1 := w];
    } else {
      assert ws[i := w][1..] == ws[1..];
    }
  }

  lemma {:induction false} IdleIsNotBusy(ws: seq<Worker>, x: Ref)
    requires AllIdle(ws)
    ensures AllBusyCount(ws, x) == 0
  {
    if ws != [] {
      IdleIsNotBusy(ws[1..], x);
    }
  }

  /** How often a transfer is between the splitter's choice and the verdict. */
  function Undecided(n: Net, x: Ref): nat {
    (if n.splitter == ToBatch(x) then 1 else 0) + Count(n.collecting, x)
    + BatchCount(n.forwarding, x) + BufferCount(n.buffered, x) + AllBusyCount(n.workers, x)
  }

  /** A transfer that is sent to the batch and whose status write fails gets its second copy once for each
      time it came in; no other does. */
  predicate Doubles(n: Net, input: seq<Ref>, toBatch: set<Ref>, failing: set<Ref>, x: Ref) {
    && (x !in toBatch ==> Undecided(n, x) == 0)
    && (x in toBatch ==> n.splitter != ToOut(x))
    && (if x in toBatch && x in failing then n.extra[x] + Count(n.input, x) + Undecided(n, x) == Count(input, x)
        else n.extra[x] == 0)
  }

  lemma {:induction false} FailedCount(batch: seq<Ref>, verdicts: seq<Verdict>, failing: set<Ref>, x: Ref)
    requires |verdicts| == |batch|
    requires forall j :: 0 <= j < |verdicts| ==> (verdicts[j].StatusFailed? <==> batch[j] in failing)
    ensures Count(Failed(batch, verdicts), x) == if x in failing then Count(batch, x) else 0
  {
    hide Count;
    CountNone(x);
    if batch != [] {
      var n := |batch| - 1;
      FailedCount(batch[..n], verdicts[..n], failing, x);
      assert batch == batch[..n] + [batch[n]];
      CountLast(batch[..n], batch[n], x);
      CountLast(Failed(batch[..n], verdicts[..n]), batch[n], x);
      assert Failed(batch[..n], verdicts[..n]) + [] == Failed(batch[..n], verdicts[..n]);
    }
  }

  lemma DoublesStep(maxSize: nat, n: Net, step: Step, input: seq<Ref>, toBatch: set<Ref>, failing: set<Ref>, x: Ref)
    requires Enabled(maxSize, n, step) && Decided(n, step, toBatch, failing) && Doubles(n, input, toBatch, failing, x)
    ensures Doubles(Apply(maxSize, n, step), input, toBatch, failing, x)
  {
    hide Count, Result, Failed;
    CountNone(x);
    match step
    case Take(_) => CountHead(n.input, x);
    case SendBatch => CountLast(n.collecting, n.splitter.x, x);
    case Forward => BufferAppend(n.buffered, n.forwarding.value, x);
    case Start(i) => BusyUpdate(n.workers, i, Busy(n.buffered[0]), x);
    case Finish(i, verdicts) =>
      var batch := n.workers[i].batch;
      FailedCount(batch, verdicts, failing, x);
      BusyUpdate(n.workers, i, Done(Result(batch, verdicts)), x);
      FailedExtra(n, batch, verdicts, x);
    case Give(i) => BusyUpdate(n.workers, i, Idle, x);
    case _ =>
  }

  lemma FailedExtra(n: Net, batch: seq<Ref>, verdicts: seq<Verdict>, x: Ref)
    requires |verdicts| == |batch|
    ensures (n.extra + multiset(Failed(batch, verdicts)))[x] == n.extra[x] + Count(Failed(batch, verdicts), x)
  {
  }

  lemma {:induction false} DoublesRun(maxSize: nat, concurrency: nat, input: seq<Ref>, ns: seq<Net>, steps: seq<Step>,
                                      toBatch: set<Ref>, failing: set<Ref>, k: nat, x: Ref)
    requires IsRun(maxSize, concurrency, input, ns, steps) && k < |ns|
    requires forall i :: 0 <= i < |steps| ==> Decided(ns[i], steps[i], toBatch, failing)
    ensures Doubles(ns[k], input, toBatch, failing, x)
  {
    hide Apply, Doubles, Decided;
    if k == 0 {
      DoublesInitially(ns[0], input, concurrency, toBatch, failing, x);
    } else {
      DoublesRun(maxSize, concurrency, input, ns, steps, toBatch, failing, k - 1, x);
      DoublesStep(maxSize, ns[k - 1], steps[k - 1], input, toBatch, failing, x);
    }
  }

  lemma DoublesInitially(n: Net, input: seq<Ref>, concurrency: nat, toBatch: set<Ref>, failing: set<Ref>, x: Ref)
    requires Initial(n, input, concurrency)
    ensures Doubles(n, input, toBatch, failing, x)
  {
    IdleIsNotBusy(n.workers, x);
  }

  /** For every interleaving: when the output channel is closed, every transfer has come out as often as it
      went in, and twice as often exactly if it was sent to the batch and its status write failed. */
  lemma OutputCounts(maxSize: nat, concurrency: nat, input: seq<Ref>, ns: seq<Net>, steps: seq<Step>,
                     toBatch: set<Ref>, failing: set<Ref>, k: nat, x: Ref)
    requires IsRun(maxSize, concurrency, input, ns, steps) && k < |ns| && !ns[k].open
    requires forall i :: 0 <= i < |steps| ==> Decided(ns[i], steps[i], toBatch, failing)
    ensures Count(ns[k].out, x) == (if x in toBatch && x in failing then 2 else 1) * Count(input, x)
  {
    hide IsRun, Decided, Conserves;
    DoublesRun(maxSize, concurrency, input, ns, steps, toBatch, failing, k, x);
    NetworkRun(maxSize, concurrency, input, ns, steps, k, x);
    Drained(ns[k], input, x);
    IdleIsNotBusy(ns[k].workers, x);
    CountNone(x);
  }

  /** No batch is empty or larger than allowed, and no more are buffered than the channel holds. */
  predicate Fits(maxSize: nat, n: Net) {
    && |n.collecting| <= maxSize && |n.buffered| <= BUFFER_SIZE
    && (n.forwarding.Some? ==> 0 < |n.forwarding.value| <= maxSize)
    && (forall i :: 0 <= i < |n.buffered| ==> 0 < |n.buffered[i]| <= maxSize)
    && (forall i :: 0 <= i < |n.workers| && n.workers[i].Busy? ==> 0 < |n.workers[i].batch| <= maxSize)
  }

  lemma FitsStep(maxSize: nat, n: Net, step: Step)
    requires Enabled(maxSize, n, step) && Fits(maxSize, n)
    ensures Fits(maxSize, Apply(maxSize, n, step))
  {
    hide Result, Failed;
  }

  lemma {:induction false} BatchesFit(maxSize: nat, concurrency: nat, input: seq<Ref>, ns: seq<Net>, steps: seq<Step>,
                                      k: nat)
    requires IsRun(maxSize, concurrency, input, ns, steps) && k < |ns|
    ensures Fits(maxSize, ns[k])
  {
    hide Apply, Enabled;
    if k > 0 {
      BatchesFit(maxSize, concurrency, input, ns, steps, k - 1);
      FitsStep(maxSize, ns[k - 1], steps[k - 1]);
    }
  }

  function Flat(batches: seq<seq<Ref>>): seq<Ref> {
    if batches == [] then [] else batches[0] + Flat(batches[1..])
  }

  lemma {:induction false} FlatAppend(batches: seq<seq<Ref>>, b: seq<Ref>)
    ensures Flat(batches + [b]) == Flat(batches) + b
  {
    if batches == [] {
      assert [b] == [] + [b];
    } else {
      FlatAppend(batches[1..], b);
      assert (batches + [b])[1..] == batches[1..] + [b];
    }
  }

  function InLine(a: seq<Ref>, b: seq<Ref>, c: seq<Ref>, d: seq<Ref>): seq<Ref> { a + b + c + d }

  /** Parts of a queue that move up by one place. */
  lemma MovesUp(a: seq<Ref>, b: seq<Ref>, c: seq<Ref>, d: seq<Ref>)
    ensures InLine(a, b, c, d) == InLine(a, b, c + d, []) && InLine(a, [], c, d) == InLine(a, c, [], d)
    ensures InLine(a, b, c, d) == InLine(a + b, [], c, d) == InLine(a, b, c, []) + d
  {
    assert a + b + (c + d) == a + b + c + d;
  }

  lemma FirstLeaves(a: seq<Ref>, b: seq<Ref>, c: seq<Ref>, d: seq<Ref>, e: seq<Ref>)
    ensures InLine(a + b, c, d, e) == a + InLine(b, c, d, e)
  {
    assert a + b + c + d + e == a + (b + c + d + e);
  }

  /** What waits for a worker, in the order in which it will be worked on. */
  function Queued(n: Net): seq<Ref> {
    InLine(Flat(n.buffered), if n.forwarding.Some? then n.forwarding.value else [], n.collecting,
           if n.splitter.ToBatch? then [n.splitter.x] else [])
  }

  /** What the step chooses for a batch, and the batch that it begins to work on. */
  function Chooses(n: Net, step: Step): seq<Ref> {
    if step == Take(true) && n.input != [] then [n.input[0]] else []
  }

  function Begins(n: Net, step: Step): seq<Ref> {
    if step.Start? && n.buffered != [] then n.buffered[0] else []
  }

  /** A batch leaves the front of the queue. */
  lemma QueueLeft(maxSize: nat, n: Net, i: nat)
    requires Enabled(maxSize, n, Start(i))
    ensures Queued(n) == n.buffered[0] + Queued(Apply(maxSize, n, Start(i)))
  {
    FirstLeaves(n.buffered[0], Flat(n.buffered[1..]), if n.forwarding.Some? then n.forwarding.value else [],
                n.collecting, if n.splitter.ToBatch? then [n.splitter.x] else []);
  }

  /** A transfer joins its end. */
  lemma QueueJoined(maxSize: nat, n: Net)
    requires Enabled(maxSize, n, Take(true))
    ensures Queued(Apply(maxSize, n, Take(true))) == Queued(n) + [n.input[0]]
  {
    MovesUp(Flat(n.buffered), if n.forwarding.Some? then n.forwarding.value else [], n.collecting, [n.input[0]]);
  }

  /** What moves within the queue keeps its place. */
  lemma QueueMoved(maxSize: nat, n: Net, step: Step)
    requires Enabled(maxSize, n, step) && (step.SendBatch? || step.Emit? || step.Forward?)
    ensures Queued(Apply(maxSize, n, step)) == Queued(n)
  {
    hide InLine;
    if step.Forward? {
      FlatAppend(n.buffered, n.forwarding.value);
    }
    MovesUp(Flat(n.buffered), if n.forwarding.Some? then n.forwarding.value else [], n.collecting,
            if n.splitter.ToBatch? then [n.splitter.x] else []);
  }

  /** And no other operation touches it. */
  lemma QueueKept(maxSize: nat, n: Net, step: Step)
    requires Enabled(maxSize, n, step) && !step.Start? && step != Take(true)
    requires !step.SendBatch? && !step.Emit? && !step.Forward?
    ensures Queued(Apply(maxSize, n, step)) == Queued(n)
  {
    hide Result, Failed, InLine, Flat;
  }

  lemma QueueStep(maxSize: nat, n: Net, step: Step)
    requires Enabled(maxSize, n, step)
    ensures Begins(n, step) + Queued(Apply(maxSize, n, step)) == Queued(n) + Chooses(n, step)
  {
    hide Apply, Queued;
    match step
    case Start(i) => QueueLeft(maxSize, n, i);
    case Take(batch) =>
      if batch {
        QueueJoined(maxSize, n);
      } else {
        QueueKept(maxSize, n, step);
      }
    case SendBatch => QueueMoved(maxSize, n, step);
    case Emit => QueueMoved(maxSize, n, step);
    case Forward => QueueMoved(maxSize, n, step);
    case _ => QueueKept(maxSize, n, step);
  }

  function AllChosen(ns: seq<Net>, steps: seq<Step>, k: nat): seq<Ref>
    requires k <= |steps| && k <= |ns|
  {
    if k == 0 then [] else AllChosen(ns, steps, k - 1) + Chooses(ns[k - 1], steps[k - 1])
  }

  function AllBegun(ns: seq<Net>, steps: seq<Step>, k: nat): seq<Ref>
    requires k <= |steps| && k <= |ns|
  {
    if k == 0 then [] else AllBegun(ns, steps, k - 1) + Begins(ns[k - 1], steps[k - 1])
  }

  /** Whatever the interleaving, transfers are worked on in the order in which they were chosen from the input: those
      begun, and then those that wait, are exactly those chosen. */
  lemma {:induction false} BatchesKeepOrder(maxSize: nat, concurrency: nat, input: seq<Ref>, ns: seq<Net>,
                                            steps: seq<Step>, k: nat)
    requires IsRun(maxSize, concurrency, input, ns, steps) && k < |ns|
    ensures AllBegun(ns, steps, k) + Queued(ns[k]) == AllChosen(ns, steps, k)
  {
    hide Apply, Enabled;
    if k > 0 {
      hide Queued, Begins, Chooses;
      BatchesKeepOrder(maxSize, concurrency, input, ns, steps, k - 1);
      QueueStep(maxSize, ns[k - 1], steps[k - 1]);
      Regroup(AllBegun(ns, steps, k - 1), Begins(ns[k - 1], steps[k - 1]), Queued(ns[k]), Queued(ns[k - 1]),
              Chooses(ns[k - 1], steps[k - 1]));
    }
  }

  lemma Regroup(a: seq<Ref>, b: seq<Ref>, c: seq<Ref>, d: seq<Ref>, e: seq<Ref>)
    requires b + c == d + e
    ensures (a + b) + c == (a + d) + e
  {
    assert (a + b) + c == a + (b + c);
  }
}
