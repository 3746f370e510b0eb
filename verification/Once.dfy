/** OnceWithKey: concurrent calls of Do share cached entries, each holding an action that runs once. */
module Once {
  import opened Transfers

  /** The map takes keys of any type; the cleanup looks up an entry among them. */
  datatype MapKey = ByKey(key: string) | ByEntry(entry: nat)

  datatype Reply = Reply(value: string, failed: bool)

  /** One look at an entry's timeouts: the clock read twice, and whether an error was recorded. */
  datatype Look = Look(first: Time, second: Time, failed: bool)

  datatype Timeouts = Timeouts(success: int, error: int)

  datatype Entry = Entry(
    key: string,
    owner: nat,               // the call whose action the entry holds
    errorFrom: Time,          // the clock when the error timeout was set
    successFrom: Time,        // and the success timeout
    failed: bool,             // an error has been recorded
    runner: Option<nat>,      // the call that runs the action
    runs: nat,
    reply: Option<Reply>,
    retired: Option<Look>)    // the look that led to its replacement
  {
    /** IsTimedOut, from what was seen of the entry. */
    predicate Expired(look: Look, to: Timeouts) {
      || (look.first >= errorFrom + to.error && look.failed)
      || (look.second >= successFrom + to.success && !look.failed)
    }
  }

  /** Which entry a call works with: one it created, or one it found unexpired. */
  datatype Found = Created(entry: nat) | Existing(entry: nat, look: Look)

  datatype Phase = Calling | Waiting | Running | Returned(reply: Reply) | Recorded(reply: Reply) | Done(reply: Reply) {
    function Got(): Option<Reply> {
      match this
      case Returned(r) => Some(r)
      case Recorded(r) => Some(r)
      case Done(r) => Some(r)
      case _ => None
    }
  }

  datatype Call = Call(key: string, found: Option<Found>, phase: Phase)

  datatype State = State(onces: map<MapKey, nat>, entries: seq<Entry>, calls: map<nat, Call>, clock: Time)

  datatype Step =
    | Invoke(c: nat, key: string)
    | LookUp(c: nat, first: Time, second: Time, errorFrom: Time, successFrom: Time)
    | Start(c: nat)                  // the first to call once() runs the action
    | Finish(c: nat, reply: Reply)
    | Join(c: nat)                   // the others wait for its reply
    | Record(c: nat)                 // SetError, if there is one
    | Clean(c: nat, first: Time, second: Time)

  /** Every entry the map or a call refers to is there. */
  predicate Bounded(s: State) {
    && (forall m :: m in s.onces ==> s.onces[m] < |s.entries|)
    && (forall c :: c in s.calls && s.calls[c].found.Some? ==> s.calls[c].found.value.entry < |s.entries|)
    && (forall c :: c in s.calls ==> (s.calls[c].phase.Calling? <==> s.calls[c].found.None?))
  }

  function EntryOf(s: State, c: nat): nat
    requires c in s.calls && s.calls[c].found.Some?
  {
    s.calls[c].found.value.entry
  }

  predicate Enabled(s: State, step: Step) {
    && Bounded(s)
    && match step
       case Invoke(c, _) => c !in s.calls
       case LookUp(c, t1, t2, n1, n2) => c in s.calls && s.calls[c].phase.Calling? && s.clock <= t1 <= t2 <= n1 <= n2
       case Start(c) => c in s.calls && s.calls[c].phase.Waiting? && s.entries[EntryOf(s, c)].runner.None?
       case Finish(c, _) => c in s.calls && s.calls[c].phase.Running?
       case Join(c) => c in s.calls && s.calls[c].phase.Waiting? && s.entries[EntryOf(s, c)].reply.Some?
       case Record(c) => c in s.calls && s.calls[c].phase.Returned?
       case Clean(c, t1, t2) => c in s.calls && s.calls[c].phase.Recorded? && s.clock <= t1 <= t2
  }

  function Apply(s: State, step: Step, to: Timeouts): State
    requires Enabled(s, step)
  {
    match step
    case Invoke(c, key) => s.(calls := s.calls[c := Call(key, None, Calling)])
    case LookUp(c, t1, t2, n1, n2) => ApplyLookUp(s, c, t1, t2, n1, n2, to)
    case Start(c) =>
      var e := EntryOf(s, c);
      s.(entries := s.entries[e := s.entries[e].(runner := Some(c), runs := s.entries[e].runs + 1)],
         calls := s.calls[c := s.calls[c].(phase := Running)])
    case Finish(c, reply) =>
      var e := EntryOf(s, c);
      s.(entries := s.entries[e := s.entries[e].(reply := Some(reply))],
         calls := s.calls[c := s.calls[c].(phase := Returned(reply))])
    case Join(c) =>
      s.(calls := s.calls[c := s.calls[c].(phase := Returned(s.entries[EntryOf(s, c)].reply.value))])
    case Record(c) =>
      var e, r := EntryOf(s, c), s.calls[c].phase.reply;
      s.(entries := if r.failed then s.entries[e := s.entries[e].(failed := true)] else s.entries,
         calls := s.calls[c := s.calls[c].(phase := Recorded(r))])
    case Clean(c, t1, t2) =>
      s.(onces := Cleaned(s.onces, s.entries, EntryOf(s, c), t1, t2, to),
         calls := s.calls[c := s.calls[c].(phase := Done(s.calls[c].phase.reply))], clock := t2)
  }

  /** The first critical section. */
  function ApplyLookUp(s: State, c: nat, t1: Time, t2: Time, n1: Time, n2: Time, to: Timeouts): State
    requires Bounded(s) && c in s.calls
  {
    var key := s.calls[c].key;
    var entries := Entries(s.onces, s.entries, key, c, t1, t2, n1, n2, to);
    if Hit(s.onces, s.entries, key, t1, t2, to) then
      var e := s.onces[ByKey(key)];
      s.(calls := s.calls[c := Call(key, Some(Existing(e, Look(t1, t2, s.entries[e].failed))), Waiting)], clock := n2)
    else
      State(s.onces[ByKey(key) := |s.entries|], entries,
            s.calls[c := Call(key, Some(Created(|s.entries|)), Waiting)], n2)
  }

  predicate Hit(onces: map<MapKey, nat>, entries: seq<Entry>, key: string, t1: Time, t2: Time, to: Timeouts)
    requires forall m :: m in onces ==> onces[m] < |entries|
  {
    ByKey(key) in onces
    && !entries[onces[ByKey(key)]].Expired(Look(t1, t2, entries[onces[ByKey(key)]].failed), to)
  }

  /** The entries after a lookup; a new one retires the one it replaces. */
  function Entries(onces: map<MapKey, nat>, entries: seq<Entry>, key: string, c: nat,
                   t1: Time, t2: Time, n1: Time, n2: Time, to: Timeouts): seq<Entry>
    requires forall m :: m in onces ==> onces[m] < |entries|
  {
    if Hit(onces, entries, key, t1, t2, to) then entries
    else
      (if ByKey(key) in onces then
         var e := onces[ByKey(key)];
         entries[e := entries[e].(retired := Some(Look(t1, t2, entries[e].failed)))]
       else entries)
      + [Entry(key, c, n1, n2, false, None, 0, None, None)]
  }

  /** The last critical section deletes the entry itself, which is no key of the map. */
  function Cleaned(onces: map<MapKey, nat>, entries: seq<Entry>, e: nat, t1: Time, t2: Time, to: Timeouts)
    : map<MapKey, nat>
    requires e < |entries|
  {
    if entries[e].Expired(Look(t1, t2, entries[e].failed), to) then onces - {ByEntry(e)} else onces
  }

  predicate Initial(s: State) { s.onces == map[] && s.entries == [] && s.calls == map[] }

  predicate IsRun(ss: seq<State>, steps: seq<Step>, to: Timeouts) {
    && |ss| == |steps| + 1 && Initial(ss[0])
    && forall i :: 0 <= i < |steps| ==> Enabled(ss[i], steps[i]) && ss[i + 1] == Apply(ss[i], steps[i], to)
  }

  /** Only keys are mapped, and only to their own entries; every entry's key is mapped. */
  predicate MapOk(s: State)
    requires Bounded(s)
  {
    && (forall m :: m in s.onces ==> m.ByKey? && s.entries[s.onces[m]].key == m.key)
    && (forall e :: 0 <= e < |s.entries| ==> ByKey(s.entries[e].key) in s.onces)
  }

  /** The action was given by the call that created the entry; it was started at most once, by a call that
      works with the entry; an error is recorded only if the action returned one; and an entry that is no
      longer the mapped one was seen expired before it was replaced. */
  predicate EntryFits(x: Entry, e: nat, calls: map<nat, Call>, mapped: bool, to: Timeouts) {
    && x.runs == (if x.runner.None? then 0 else 1)
    && (x.reply.Some? ==> x.runner.Some?)
    && (x.failed ==> x.reply.Some? && x.reply.value.failed)
    && WorksWith(calls, x.owner, e) && calls[x.owner].found.value.Created?
    && (x.runner.Some? ==> WorksWith(calls, x.runner.value, e))
    && (x.runner.Some? && x.reply.None? ==> calls[x.runner.value].phase.Running?)
    && (!mapped ==> x.retired.Some? && x.Expired(x.retired.value, to))
  }

  predicate WorksWith(calls: map<nat, Call>, c: nat, e: nat) {
    c in calls && calls[c].found.Some? && calls[c].found.value.entry == e
  }

  /** The call works with an entry of its key that it created or saw unexpired, and what it returns is the
      reply of the entry's action. */
  predicate CallFits(call: Call, c: nat, x: Entry, to: Timeouts)
    requires call.found.Some?
  {
    && x.key == call.key
    && (call.found.value.Created? ==> x.owner == c)
    && (call.found.value.Existing? ==> !x.Expired(call.found.value.look, to))
    && (call.phase.Got().Some? ==> x.reply == call.phase.Got())
    && (call.phase.Recorded? || call.phase.Done? ==> x.failed == call.phase.reply.failed)
    && (call.phase.Running? ==> x.runner == Some(c) && x.reply.None?)
  }

  predicate EntriesOk(s: State, to: Timeouts)
    requires Bounded(s) && MapOk(s)
  {
    forall e :: 0 <= e < |s.entries| ==>
      EntryFits(s.entries[e], e, s.calls, s.onces[ByKey(s.entries[e].key)] == e, to)
  }

  predicate CallsOk(s: State, to: Timeouts)
    requires Bounded(s)
  {
    forall c :: c in s.calls && s.calls[c].found.Some? ==> CallFits(s.calls[c], c, s.entries[EntryOf(s, c)], to)
  }

  predicate Inv(s: State, to: Timeouts) { Bounded(s) && MapOk(s) && EntriesOk(s, to) && CallsOk(s, to) }

  /** What a call may do to the entry it works with. */
  predicate Advances(x: Entry, y: Entry, c: nat) {
    && y.key == x.key && y.owner == x.owner && y.errorFrom == x.errorFrom && y.successFrom == x.successFrom
    && y.retired == x.retired
    && (x.runner.Some? ==> y.runner == x.runner)
    && (x.reply.Some? ==> y.reply == x.reply)
    && (y.reply != x.reply ==> x.runner == Some(c))
    && (x.failed ==> y.failed)
  }

  lemma OtherCallFits(d: nat, call: Call, c: nat, x: Entry, y: Entry, e: nat, calls: map<nat, Call>, mapped: bool,
                      to: Timeouts)
    requires call.found.Some? && CallFits(call, d, x, to) && Advances(x, y, c) && c != d
    requires EntryFits(y, e, calls, mapped, to)
    ensures CallFits(call, d, y, to)
  {
  }

  function Advance(s: State, c: nat, phase: Phase, y: Entry): State
    requires Bounded(s) && c in s.calls && s.calls[c].found.Some?
  {
    s.(entries := s.entries[EntryOf(s, c) := y], calls := s.calls[c := s.calls[c].(phase := phase)])
  }

  /** The call and the entry still fit each other after a step of the call. */
  predicate StillFit(s: State, c: nat, phase: Phase, y: Entry, to: Timeouts)
    requires Bounded(s) && c in s.calls && s.calls[c].found.Some? && ByKey(y.key) in s.onces
  {
    && !phase.Calling?
    && Advances(s.entries[EntryOf(s, c)], y, c)
    && CallFits(s.calls[c].(phase := phase), c, y, to)
    && EntryFits(y, EntryOf(s, c), s.calls[c := s.calls[c].(phase := phase)],
                 s.onces[ByKey(y.key)] == EntryOf(s, c), to)
  }

  lemma OtherEntryFits(s: State, c: nat, phase: Phase, i: nat, to: Timeouts)
    requires Inv(s, to) && c in s.calls && s.calls[c].found.Some? && i < |s.entries| && i != EntryOf(s, c)
    ensures EntryFits(s.entries[i], i, s.calls[c := s.calls[c].(phase := phase)],
                      s.onces[ByKey(s.entries[i].key)] == i, to)
  {
    assert EntryFits(s.entries[i], i, s.calls, s.onces[ByKey(s.entries[i].key)] == i, to);
  }

  lemma AdvanceEntries(s: State, c: nat, phase: Phase, y: Entry, to: Timeouts)
    requires Inv(s, to) && c in s.calls && s.calls[c].found.Some? && ByKey(y.key) in s.onces
             && StillFit(s, c, phase, y, to)
    ensures var s' := Advance(s, c, phase, y); Bounded(s') && MapOk(s') && EntriesOk(s', to)
  {
    hide EntryFits, CallFits;
    var s', e := Advance(s, c, phase, y), EntryOf(s, c);
    forall i | 0 <= i < |s'.entries|
      ensures EntryFits(s'.entries[i], i, s'.calls, s'.onces[ByKey(s'.entries[i].key)] == i, to)
    {
      if i != e {
        OtherEntryFits(s, c, phase, i, to);
      }
    }
  }

  lemma AdvanceCalls(s: State, c: nat, phase: Phase, y: Entry, to: Timeouts)
    requires Inv(s, to) && c in s.calls && s.calls[c].found.Some? && ByKey(y.key) in s.onces
             && StillFit(s, c, phase, y, to)
    requires Bounded(Advance(s, c, phase, y))
    ensures CallsOk(Advance(s, c, phase, y), to)
  {
    hide EntryFits, CallFits, EntriesOk, MapOk;
    var s', e := Advance(s, c, phase, y), EntryOf(s, c);
    forall d | d in s'.calls && s'.calls[d].found.Some?
      ensures CallFits(s'.calls[d], d, s'.entries[EntryOf(s', d)], to)
    {
      if d != c && EntryOf(s, d) == e {
        OtherCallFits(d, s.calls[d], c, s.entries[e], y, e, s'.calls, s.onces[ByKey(y.key)] == e, to);
      }
    }
  }

  /** A step of one call within its entry keeps the invariant if call and entry still fit each other. */
  lemma AdvanceOk(s: State, c: nat, phase: Phase, y: Entry, to: Timeouts)
    requires Inv(s, to) && c in s.calls && s.calls[c].found.Some? && ByKey(y.key) in s.onces
             && StillFit(s, c, phase, y, to)
    ensures Inv(Advance(s, c, phase, y), to)
  {
    hide StillFit, Advance;
    AdvanceEntries(s, c, phase, y, to);
    AdvanceCalls(s, c, phase, y, to);
  }

  /** What the invariant says of one call and its entry. */
  lemma FitsNow(s: State, c: nat, to: Timeouts)
    requires Inv(s, to) && c in s.calls && s.calls[c].found.Some?
    ensures var e := EntryOf(s, c);
            && ByKey(s.entries[e].key) in s.onces && CallFits(s.calls[c], c, s.entries[e], to)
            && EntryFits(s.entries[e], e, s.calls, s.onces[ByKey(s.entries[e].key)] == e, to)
  {
    hide EntryFits, CallFits;
  }

  lemma StartOk(s: State, c: nat, to: Timeouts)
    requires Inv(s, to) && Enabled(s, Start(c))
    ensures Inv(Apply(s, Start(c), to), to)
  {
    hide Inv, MapOk;
    FitsNow(s, c, to);
    var x := s.entries[EntryOf(s, c)];
    AdvanceOk(s, c, Running, x.(runner := Some(c), runs := x.runs + 1), to);
  }

  lemma FinishOk(s: State, c: nat, reply: Reply, to: Timeouts)
    requires Inv(s, to) && Enabled(s, Finish(c, reply))
    ensures Inv(Apply(s, Finish(c, reply), to), to)
  {
    hide Inv, MapOk;
    FitsNow(s, c, to);
    AdvanceOk(s, c, Returned(reply), s.entries[EntryOf(s, c)].(reply := Some(reply)), to);
  }

  lemma JoinOk(s: State, c: nat, to: Timeouts)
    requires Inv(s, to) && Enabled(s, Join(c))
    ensures Inv(Apply(s, Join(c), to), to)
  {
    hide Inv, MapOk;
    FitsNow(s, c, to);
    var x := s.entries[EntryOf(s, c)];
    AdvanceOk(s, c, Returned(x.reply.value), x, to);
    assert Apply(s, Join(c), to) == Advance(s, c, Returned(x.reply.value), x);
  }

  lemma RecordOk(s: State, c: nat, to: Timeouts)
    requires Inv(s, to) && Enabled(s, Record(c))
    ensures Inv(Apply(s, Record(c), to), to)
  {
    hide Inv, MapOk;
    FitsNow(s, c, to);
    var x, r := s.entries[EntryOf(s, c)], s.calls[c].phase.reply;
    var y := if r.failed then x.(failed := true) else x;
    AdvanceOk(s, c, Recorded(r), y, to);
    assert Apply(s, Record(c), to) == Advance(s, c, Recorded(r), y);
  }

  /** The cleanup never removes anything. */
  lemma CleanKeepsMap(s: State, c: nat, first: Time, second: Time, to: Timeouts)
    requires Inv(s, to) && Enabled(s, Clean(c, first, second))
    ensures Apply(s, Clean(c, first, second), to).onces == s.onces
  {
    hide EntryFits, CallFits;
    assert ByEntry(EntryOf(s, c)) !in s.onces;
  }

  lemma CleanOk(s: State, c: nat, first: Time, second: Time, to: Timeouts)
    requires Inv(s, to) && Enabled(s, Clean(c, first, second))
    ensures Inv(Apply(s, Clean(c, first, second), to), to)
  {
    hide Inv, MapOk;
    CleanKeepsMap(s, c, first, second, to);
    FitsNow(s, c, to);
    var x, r := s.entries[EntryOf(s, c)], s.calls[c].phase.reply;
    AdvanceOk(s, c, Done(r), x, to);
    var t := Advance(s, c, Done(r), x);
    assert Apply(s, Clean(c, first, second), to) == t.(clock := second);
    ClockIsFree(t, second, to);
  }

  lemma ClockIsFree(s: State, clock: Time, to: Timeouts)
    requires Inv(s, to)
    ensures Inv(s.(clock := clock), to)
  {
    hide EntryFits, CallFits;
  }

  lemma InvokeOk(s: State, c: nat, key: string, to: Timeouts)
    requires Inv(s, to) && Enabled(s, Invoke(c, key))
    ensures Inv(Apply(s, Invoke(c, key), to), to)
  {
    hide EntryFits, CallFits;
    var s' := Apply(s, Invoke(c, key), to);
    forall e | 0 <= e < |s.entries|
      ensures EntryFits(s.entries[e], e, s'.calls, s.onces[ByKey(s.entries[e].key)] == e, to)
    {
      CallsGrow(s.entries[e], e, s.calls, c, s'.calls[c], s.onces[ByKey(s.entries[e].key)] == e, to);
    }
  }

  /** An entry does not notice what a call without one does. */
  lemma CallsGrow(x: Entry, e: nat, calls: map<nat, Call>, c: nat, call: Call, mapped: bool, to: Timeouts)
    requires EntryFits(x, e, calls, mapped, to) && (c in calls ==> calls[c].found.None?)
    ensures EntryFits(x, e, calls[c := call], mapped, to)
  {
  }

  lemma HitOk(s: State, step: Step, to: Timeouts)
    requires Inv(s, to) && Enabled(s, step) && step.LookUp?
    requires Hit(s.onces, s.entries, s.calls[step.c].key, step.first, step.second, to)
    ensures Inv(Apply(s, step, to), to)
  {
    hide EntryFits;
    var s', c := Apply(s, step, to), step.c;
    forall e | 0 <= e < |s.entries|
      ensures EntryFits(s.entries[e], e, s'.calls, s.onces[ByKey(s.entries[e].key)] == e, to)
    {
      CallsGrow(s.entries[e], e, s.calls, c, s'.calls[c], s.onces[ByKey(s.entries[e].key)] == e, to);
    }
  }

  /** The entry at the end, which the call has just created. */
  lemma NewEntryFits(s: State, step: Step, to: Timeouts)
    requires Inv(s, to) && Enabled(s, step) && step.LookUp?
    requires !Hit(s.onces, s.entries, s.calls[step.c].key, step.first, step.second, to)
    ensures var s', n := Apply(s, step, to), |s.entries|;
            && |s'.entries| == n + 1 && s'.calls[step.c].found == Some(Created(n))
            && CallFits(s'.calls[step.c], step.c, s'.entries[n], to)
            && EntryFits(s'.entries[n], n, s'.calls, true, to)
            && s'.entries[n].key == s.calls[step.c].key
  {
    hide Inv;
  }

  /** An old entry, which may have been retired. */
  lemma OldEntryFits(s: State, step: Step, e: nat, to: Timeouts)
    requires Inv(s, to) && Enabled(s, step) && step.LookUp? && e < |s.entries|
    requires !Hit(s.onces, s.entries, s.calls[step.c].key, step.first, step.second, to)
    ensures var s' := Apply(s, step, to);
            && e < |s'.entries| && s'.entries[e].key == s.entries[e].key
            && s'.entries[e].(retired := None) == s.entries[e].(retired := None)
            && ByKey(s.entries[e].key) in s'.onces
            && EntryFits(s'.entries[e], e, s'.calls, s'.onces[ByKey(s.entries[e].key)] == e, to)
  {
    hide CallFits;
    var s', key := Apply(s, step, to), s.calls[step.c].key;
    var x, mapped := s.entries[e], s.onces[ByKey(s.entries[e].key)] == e;
    assert EntryFits(x, e, s.calls, mapped, to);
    CallsGrow(x, e, s.calls, step.c, s'.calls[step.c], mapped, to);
    if x.key == key && mapped {
      Retired(x, e, s'.calls, Look(step.first, step.second, x.failed), to);
    }
  }

  lemma Retired(x: Entry, e: nat, calls: map<nat, Call>, look: Look, to: Timeouts)
    requires EntryFits(x, e, calls, true, to) && x.Expired(look, to)
    ensures EntryFits(x.(retired := Some(look)), e, calls, false, to)
  {
  }

  lemma RetiredCallFits(call: Call, c: nat, x: Entry, y: Entry, to: Timeouts)
    requires call.found.Some? && CallFits(call, c, x, to) && y.(retired := None) == x.(retired := None)
    ensures CallFits(call, c, y, to)
  {
  }

  lemma MissOk(s: State, step: Step, to: Timeouts)
    requires Inv(s, to) && Enabled(s, step) && step.LookUp?
    requires !Hit(s.onces, s.entries, s.calls[step.c].key, step.first, step.second, to)
    ensures Inv(Apply(s, step, to), to)
  {
    hide EntryFits, CallFits, Hit;
    var s', n := Apply(s, step, to), |s.entries|;
    NewEntryFits(s, step, to);
    forall e | 0 <= e < n
      ensures s'.entries[e].key == s.entries[e].key && ByKey(s.entries[e].key) in s'.onces
      ensures s'.entries[e].(retired := None) == s.entries[e].(retired := None)
      ensures EntryFits(s'.entries[e], e, s'.calls, s'.onces[ByKey(s.entries[e].key)] == e, to)
    {
      OldEntryFits(s, step, e, to);
    }
    assert s'.onces == s.onces[ByKey(s.calls[step.c].key) := n];
    assert s'.calls == s.calls[step.c := s'.calls[step.c]];
    assert Bounded(s') && MapOk(s') && EntriesOk(s', to);
    forall d | d in s'.calls && s'.calls[d].found.Some?
      ensures CallFits(s'.calls[d], d, s'.entries[EntryOf(s', d)], to)
    {
      if d != step.c {
        RetiredCallFits(s.calls[d], d, s.entries[EntryOf(s, d)], s'.entries[EntryOf(s, d)], to);
      }
    }
  }

  lemma InvStep(s: State, step: Step, to: Timeouts)
    requires Inv(s, to) && Enabled(s, step)
    ensures Inv(Apply(s, step, to), to)
  {
    match step
    case Invoke(c, key) => InvokeOk(s, c, key, to);
    case LookUp(c, first, second, _, _) =>
      if Hit(s.onces, s.entries, s.calls[c].key, first, second, to) {
        HitOk(s, step, to);
      } else {
        MissOk(s, step, to);
      }
    case Start(c) => StartOk(s, c, to);
    case Finish(c, reply) => FinishOk(s, c, reply, to);
    case Join(c) => JoinOk(s, c, to);
    case Record(c) => RecordOk(s, c, to);
    case Clean(c, first, second) => CleanOk(s, c, first, second, to);
  }

  lemma {:induction false} InvRun(ss: seq<State>, steps: seq<Step>, to: Timeouts, n: nat)
    requires IsRun(ss, steps, to) && n < |ss|
    ensures Inv(ss[n], to)
  {
    hide Apply;
    if n != 0 {
      InvRun(ss, steps, to, n - 1);
      InvStep(ss[n - 1], steps[n - 1], to);
    }
  }

  /** Whatever the interleaving of concurrent calls, no entry's action is started twice, and it is the one
      given by the call that created the entry, for the entry's key. */
  lemma ActionsRunOnce(ss: seq<State>, steps: seq<Step>, to: Timeouts, n: nat, e: nat)
    requires IsRun(ss, steps, to) && n < |ss| && e < |ss[n].entries|
    ensures var s, x := ss[n], ss[n].entries[e];
            && x.runs <= 1 && (x.reply.Some? ==> x.runs == 1)
            && x.owner in s.calls && s.calls[x.owner].found == Some(Created(e)) && s.calls[x.owner].key == x.key
  {
    hide Apply;
    InvRun(ss, steps, to, n);
    var s, x := ss[n], ss[n].entries[e];
    assert EntryFits(x, e, s.calls, s.onces[ByKey(x.key)] == e, to);
    assert CallFits(s.calls[x.owner], x.owner, x, to);
  }

  /** A call returns the one reply of an action given for its own key, from an entry that it created or that
      was not expired when it looked: younger than the error timeout if an error was recorded by then, else
      younger than the success timeout. */
  lemma RepliesAreForTheKey(ss: seq<State>, steps: seq<Step>, to: Timeouts, n: nat, c: nat)
    requires IsRun(ss, steps, to) && n < |ss| && c in ss[n].calls && ss[n].calls[c].phase.Done?
    ensures ss[n].calls[c].found.Some? && EntryOf(ss[n], c) < |ss[n].entries|
    ensures var s := ss[n];
            var call, x := s.calls[c], s.entries[EntryOf(s, c)];
            && x.reply == Some(call.phase.reply) && x.key == call.key
            && match call.found.value
               case Created(_) => x.owner == c
               case Existing(_, look) =>
                 if look.failed then look.first - x.errorFrom < to.error else look.second - x.successFrom < to.success
  {
    hide Apply, EntryFits;
    InvRun(ss, steps, to, n);
    var s := ss[n];
    assert CallFits(s.calls[c], c, s.entries[EntryOf(s, c)], to);
  }

  /** The entry was replaced after a look that found it as old as the timeout for what it held. */
  predicate Replaced(x: Entry, to: Timeouts) {
    && x.retired.Some?
    && var look := x.retired.value;
       if look.failed then look.first - x.errorFrom >= to.error else look.second - x.successFrom >= to.success
  }

  /** Of two entries for one key the mapped one is at most one, and any other had expired by the time it was
      replaced. */
  lemma ReplacedOnlyWhenExpired(ss: seq<State>, steps: seq<Step>, to: Timeouts, n: nat, e: nat, f: nat)
    requires IsRun(ss, steps, to) && n < |ss| && e < |ss[n].entries| && f < |ss[n].entries| && e != f
    requires ss[n].entries[e].key == ss[n].entries[f].key
    ensures Replaced(ss[n].entries[e], to) || Replaced(ss[n].entries[f], to)
  {
    hide Apply, CallFits;
    InvRun(ss, steps, to, n);
    var s := ss[n];
    assert EntryFits(s.entries[e], e, s.calls, s.onces[ByKey(s.entries[e].key)] == e, to);
    assert EntryFits(s.entries[f], f, s.calls, s.onces[ByKey(s.entries[f].key)] == f, to);
  }

  /** The step is the lookup that made the entry: for its own key, as the newest entry, with the timeouts running from
      the clock as the lookup read it. */
  predicate Makes(s: State, step: Step, e: nat, x: Entry) {
    && step.LookUp? && step.c in s.calls && e == |s.entries|
    && x.owner == step.c && x.key == s.calls[step.c].key
    && x.errorFrom == step.errorFrom && x.successFrom == step.successFrom
  }

  predicate SameBirth(x: Entry, y: Entry) {
    x.owner == y.owner && x.key == y.key && x.errorFrom == y.errorFrom && x.successFrom == y.successFrom
  }

  lemma MakesStep(s: State, step: Step, to: Timeouts, e: nat)
    requires Enabled(s, step) && e < |Apply(s, step, to).entries|
    ensures var x := Apply(s, step, to).entries[e];
            (e < |s.entries| && SameBirth(s.entries[e], x)) || Makes(s, step, e, x)
  {
  }

  /** Every entry was made by a lookup of its owner, and its timeouts run from then. */
  lemma {:induction false} EntriesWereMade(ss: seq<State>, steps: seq<Step>, to: Timeouts, n: nat, e: nat)
    returns (i: nat)
    requires IsRun(ss, steps, to) && n < |ss| && e < |ss[n].entries|
    ensures i < n && Makes(ss[i], steps[i], e, ss[n].entries[e])
  {
    hide Apply, Enabled;
    MakesStep(ss[n - 1], steps[n - 1], to, e);
    if Makes(ss[n - 1], steps[n - 1], e, ss[n].entries[e]) {
      i := n - 1;
    } else {
      i := EntriesWereMade(ss, steps, to, n - 1, e);
    }
  }

  /** What a call saw of the entry it found is what was there when it looked: the error recorded by then, at the
      clock as it read it. */
  predicate Sees(s: State, step: Step, c: nat, e: nat, look: Look) {
    && step.LookUp? && step.c == c && e < |s.entries|
    && look == Look(step.first, step.second, s.entries[e].failed)
  }

  lemma SeesStep(s: State, step: Step, to: Timeouts, c: nat)
    requires Enabled(s, step) && c in Apply(s, step, to).calls
    requires var call := Apply(s, step, to).calls[c]; call.found.Some? && call.found.value.Existing?
    ensures var found := Apply(s, step, to).calls[c].found;
            (c in s.calls && s.calls[c].found == found) || Sees(s, step, c, found.value.entry, found.value.look)
  {
    hide Entries, Cleaned;
  }

  lemma {:induction false} LooksWereTaken(ss: seq<State>, steps: seq<Step>, to: Timeouts, n: nat, c: nat)
    returns (i: nat)
    requires IsRun(ss, steps, to) && n < |ss| && c in ss[n].calls
    requires ss[n].calls[c].found.Some? && ss[n].calls[c].found.value.Existing?
    ensures i < n && Sees(ss[i], steps[i], c, EntryOf(ss[n], c), ss[n].calls[c].found.value.look)
  {
    hide Enabled, Apply;
    var s, step := ss[n - 1], steps[n - 1];
    SeesStep(s, step, to, c);
    if Sees(s, step, c, EntryOf(ss[n], c), ss[n].calls[c].found.value.look) {
      i := n - 1;
    } else {
      i := LooksWereTaken(ss, steps, to, n - 1, c);
    }
  }

  /** The map never loses a key: the cleanup is given the entry where the key is needed. */
  lemma {:induction false} MapOnlyGrows(ss: seq<State>, steps: seq<Step>, to: Timeouts, m: nat, n: nat)
    requires IsRun(ss, steps, to) && m <= n < |ss|
    ensures ss[m].onces.Keys <= ss[n].onces.Keys
  {
    hide Inv;
    if m < n {
      MapOnlyGrows(ss, steps, to, m, n - 1);
      InvRun(ss, steps, to, n - 1);
      var s, step := ss[n - 1], steps[n - 1];
      if step.Clean? {
        CleanKeepsMap(s, step.c, step.first, step.second, to);
      }
    }
  }

  /** The object itself: the map and the entries, changed section by section. The ghost field holds the state
      of all calls that it stands for; every section is one step of it, so everything above holds of every
      interleaving of sections. */
  class OnceWithKey {
    const timeouts: Timeouts
    var onces: map<MapKey, nat>
    var entries: seq<Entry>
    ghost var world: State

    ghost predicate Valid()
      reads this
    {
      onces == world.onces && entries == world.entries && Inv(world, timeouts)
    }

    constructor (successTimeout: int, errorTimeout: int)
      ensures Valid() && Initial(world) && timeouts == Timeouts(successTimeout, errorTimeout)
    {
      timeouts := Timeouts(successTimeout, errorTimeout);
      onces, entries := map[], [];
      world := State(map[], [], map[], 0);
    }

    predicate IsTimedOut(e: nat, first: Time, second: Time)
      requires e < |entries|
      reads this
    {
      entries[e].Expired(Look(first, second, entries[e].failed), timeouts)
    }

    /** The first critical section of Do. */
    method LookUpOrCreate(c: nat, key: string, t1: Time, t2: Time, n1: Time, n2: Time) returns (e: nat)
      requires Valid() && Enabled(world, LookUp(c, t1, t2, n1, n2)) && world.calls[c].key == key
      modifies this
      ensures Valid() && world == Apply(old(world), LookUp(c, t1, t2, n1, n2), timeouts)
      ensures WorksWith(world.calls, c, e) && world.calls[c].phase.Waiting?
    {
      hide Inv;
      InvStep(world, LookUp(c, t1, t2, n1, n2), timeouts);
      world := Apply(world, LookUp(c, t1, t2, n1, n2), timeouts);
      var present := ByKey(key) in onces;
      if !present || IsTimedOut(onces[ByKey(key)], t1, t2) {
        if present {
          var last := onces[ByKey(key)];
          entries := entries[last := entries[last].(retired := Some(Look(t1, t2, entries[last].failed)))];
        }
        e := |entries|;
        entries := entries + [Entry(key, c, n1, n2, false, None, 0, None, None)];
        onces := onces[ByKey(key) := e];
      } else {
        e := onces[ByKey(key)];
      }
    }

    /** The first caller of once() starts the action. */
    method StartAction(c: nat, e: nat)
      requires Valid() && Enabled(world, Start(c)) && WorksWith(world.calls, c, e)
      modifies this
      ensures Valid() && world == Apply(old(world), Start(c), timeouts)
    {
      hide Inv;
      InvStep(world, Start(c), timeouts);
      world := Apply(world, Start(c), timeouts);
      entries := entries[e := entries[e].(runner := Some(c), runs := entries[e].runs + 1)];
    }

    /** The action has returned; the entry keeps its reply. */
    method FinishAction(c: nat, e: nat, reply: Reply)
      requires Valid() && Enabled(world, Finish(c, reply)) && WorksWith(world.calls, c, e)
      modifies this
      ensures Valid() && world == Apply(old(world), Finish(c, reply), timeouts)
    {
      hide Inv;
      InvStep(world, Finish(c, reply), timeouts);
      world := Apply(world, Finish(c, reply), timeouts);
      entries := entries[e := entries[e].(reply := Some(reply))];
    }

    /** Any other caller of once() waits for that reply. */
    method JoinAction(c: nat, e: nat) returns (reply: Reply)
      requires Valid() && Enabled(world, Join(c)) && WorksWith(world.calls, c, e)
      modifies this
      ensures Valid() && world == Apply(old(world), Join(c), timeouts)
      ensures world.calls[c].phase == Returned(reply)
    {
      hide Inv;
      InvStep(world, Join(c), timeouts);
      world := Apply(world, Join(c), timeouts);
      return entries[e].reply.value;
    }

    /** SetError, if the action returned an error. */
    method SetError(c: nat, e: nat, reply: Reply)
      requires Valid() && Enabled(world, Record(c)) && WorksWith(world.calls, c, e)
      requires world.calls[c].phase == Returned(reply)
      modifies this
      ensures Valid() && world == Apply(old(world), Record(c), timeouts)
    {
      hide Inv;
      InvStep(world, Record(c), timeouts);
      world := Apply(world, Record(c), timeouts);
      if reply.failed {
        entries := entries[e := entries[e].(failed := true)];
      }
    }

    /** The last critical section of Do. */
    method Cleanup(c: nat, e: nat, first: Time, second: Time)
      requires Valid() && Enabled(world, Clean(c, first, second)) && WorksWith(world.calls, c, e)
      modifies this
      ensures Valid() && world == Apply(old(world), Clean(c, first, second), timeouts)
    {
      hide Inv;
      InvStep(world, Clean(c, first, second), timeouts);
      world := Apply(world, Clean(c, first, second), timeouts);
      if IsTimedOut(e, first, second) {
        onces := onces - {ByEntry(e)};
      }
    }

    /** The call of once(): the action given runs exactly if the entry has no reply yet. */
    method CallOnce(c: nat, e: nat, action: Reply) returns (reply: Reply)
      requires Valid() && WorksWith(world.calls, c, e) && world.calls[c].phase.Waiting? && e < |entries|
      requires entries[e].reply.None? ==> entries[e].runner.None?
      modifies this
      ensures Valid() && WorksWith(world.calls, c, e) && world.calls[c].phase == Returned(reply)
      ensures world.clock == old(world.clock) && |entries| == |old(entries)|
      ensures Some(reply) == if old(entries)[e].reply.Some? then old(entries)[e].reply else Some(action)
      ensures forall i :: 0 <= i < |entries| ==>
                entries[i].reply == if i == e then Some(reply) else old(entries)[i].reply
    {
      hide Inv, Apply;
      BoundedOf(world, timeouts);
      if entries[e].reply.None? {
        StartedIs(world, c, timeouts);
        StartAction(c, e);
        BoundedOf(world, timeouts);
        FinishedIs(world, c, action, timeouts);
        FinishAction(c, e, action);
        reply := action;
      } else {
        JoinedIs(world, c, timeouts);
        reply := JoinAction(c, e);
      }
    }

    /** What Do does after once(). */
    method Leave(c: nat, e: nat, reply: Reply, first: Time, second: Time)
      requires Valid() && WorksWith(world.calls, c, e) && world.calls[c].phase == Returned(reply)
      requires world.clock <= first <= second
      modifies this
      ensures Valid() && c in world.calls && world.calls[c].phase == Done(reply) && |entries| == |old(entries)|
      ensures forall i :: 0 <= i < |entries| ==> entries[i].reply == old(entries)[i].reply
    {
      hide Inv, Apply;
      BoundedOf(world, timeouts);
      RecordedIs(world, c, timeouts);
      SetError(c, e, reply);
      BoundedOf(world, timeouts);
      CleanedIs(world, c, first, second, timeouts);
      Cleanup(c, e, first, second);
    }

    /** Do, with nothing to wait for: if the key has an unexpired entry then the action of that entry has
        returned. The action given runs, and its reply comes back, exactly if the key has no entry or an
        expired one; otherwise the reply that entry has. No other entry gets a reply. */
    method Do(c: nat, key: string, action: Reply, t1: Time, t2: Time, n1: Time, n2: Time, first: Time, second: Time)
      returns (reply: Reply)
      requires Valid() && c !in world.calls && world.clock <= t1 <= t2 <= n1 <= n2 <= first <= second
      requires forall m :: m in onces ==> onces[m] < |entries|
      requires Hit(onces, entries, key, t1, t2, timeouts) ==> entries[onces[ByKey(key)]].reply.Some?
      modifies this
      ensures Valid() && c in world.calls && world.calls[c].phase == Done(reply)
      ensures var hit := old(Hit(onces, entries, key, t1, t2, timeouts));
              && |entries| == |old(entries)| + (if hit then 0 else 1)
              && Some(reply) == if hit then old(entries)[old(onces)[ByKey(key)]].reply else Some(action)
      ensures forall e :: 0 <= e < |old(entries)| ==> entries[e].reply == old(entries)[e].reply
    {
      hide Inv, Hit, Apply;
      BoundedOf(world, timeouts);
      ghost var s := world;
      InvStep(s, Invoke(c, key), timeouts);
      world := Apply(s, Invoke(c, key), timeouts);
      Invoked(s, c, key, timeouts);
      BoundedOf(world, timeouts);
      var e := LookUpOrCreate(c, key, t1, t2, n1, n2);
      LookedUp(s.(calls := s.calls[c := Call(key, None, Calling)]), c, t1, t2, n1, n2, timeouts);
      BoundedOf(world, timeouts);
      reply := CallOnce(c, e, action);
      Leave(c, e, reply, first, second);
    }
  }

  lemma StartedIs(s: State, c: nat, to: Timeouts)
    requires Enabled(s, Start(c))
    ensures var x := s.entries[EntryOf(s, c)];
            Apply(s, Start(c), to) == Advance(s, c, Running, x.(runner := Some(c), runs := x.runs + 1))
  {
  }

  lemma FinishedIs(s: State, c: nat, reply: Reply, to: Timeouts)
    requires Enabled(s, Finish(c, reply))
    ensures Apply(s, Finish(c, reply), to)
            == Advance(s, c, Returned(reply), s.entries[EntryOf(s, c)].(reply := Some(reply)))
  {
  }

  lemma JoinedIs(s: State, c: nat, to: Timeouts)
    requires Enabled(s, Join(c))
    ensures var x := s.entries[EntryOf(s, c)]; Apply(s, Join(c), to) == Advance(s, c, Returned(x.reply.value), x)
  {
  }

  lemma RecordedIs(s: State, c: nat, to: Timeouts)
    requires Enabled(s, Record(c))
    ensures var x, r := s.entries[EntryOf(s, c)], s.calls[c].phase.reply;
            Apply(s, Record(c), to) == Advance(s, c, Recorded(r), if r.failed then x.(failed := true) else x)
  {
  }

  lemma CleanedIs(s: State, c: nat, first: Time, second: Time, to: Timeouts)
    requires Enabled(s, Clean(c, first, second))
    ensures var s' := Apply(s, Clean(c, first, second), to);
            s'.entries == s.entries && s'.calls == s.calls[c := s.calls[c].(phase := Done(s.calls[c].phase.reply))]
  {
  }

  lemma Invoked(s: State, c: nat, key: string, to: Timeouts)
    requires Enabled(s, Invoke(c, key))
    ensures Apply(s, Invoke(c, key), to) == s.(calls := s.calls[c := Call(key, None, Calling)])
  {
  }

  /** What a lookup leaves: the entry found, or one more that nobody has started. */
  lemma LookedUp(s: State, c: nat, t1: Time, t2: Time, n1: Time, n2: Time, to: Timeouts)
    requires Enabled(s, LookUp(c, t1, t2, n1, n2))
    ensures var s', hit := Apply(s, LookUp(c, t1, t2, n1, n2), to), Hit(s.onces, s.entries, s.calls[c].key, t1, t2, to);
            && s'.clock == n2 && c in s'.calls && s'.calls[c].found.Some?
            && |s'.entries| == |s.entries| + (if hit then 0 else 1)
            && EntryOf(s', c) == (if hit then s.onces[ByKey(s.calls[c].key)] else |s.entries|)
            && (forall i :: 0 <= i < |s.entries| ==> s'.entries[i].reply == s.entries[i].reply)
            && (!hit ==> s'.entries[|s.entries|].reply.None? && s'.entries[|s.entries|].runner.None?)
  {
    hide Entry.Expired;
  }

  lemma BoundedOf(s: State, to: Timeouts)
    requires Inv(s, to)
    ensures Bounded(s)
  {
  }
}
