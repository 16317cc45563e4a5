/** When spans begin and end.

    An inferred frame is stamped with its context's creation time, which lies in the past, and a batch
    of events at one time is spread out only when a later one arrives. `TimingInv` says how the log,
    the pending batch and the contexts' creation times hang together; it is kept for two readings of
    "well timed": every span ends no sooner than it begins and ends never go back (`nested == false`),
    and spans also begin no sooner than the span around them (`nested == true`). */
module Timing {
  import opened Texts
  import opened PerfEvent
  import opened ThreadMachine

  /** The begin times of the open spans, outermost first, and the time of the last end. */
  datatype Clock = Clock(open: seq<nat>, lastClose: nat)

  const START := Clock([], 0)

  function Advance(nested: bool, c: Clock, e: Entry): Option<Clock> {
    var n := |c.open|;
    if e.phase == Begin then
      if nested && n > 0 && e.time < c.open[n - 1] then None
      else Some(Clock(c.open + [e.time], c.lastClose))
    else
      if n == 0 || e.time < c.open[n - 1] || e.time < c.lastClose then None
      else Some(Clock(c.open[..n - 1], e.time))
  }

  /** Reads a log with a clock; no result when some entry is badly timed. */
  function Timed(nested: bool, log: seq<Entry>, c: Clock): Option<Clock> {
    if log == [] then Some(c)
    else
      match Advance(nested, c, log[0])
      case None => None
      case Some(d) => Timed(nested, log[1..], d)
  }

  lemma {:induction false} TimedAppend(nested: bool, a: seq<Entry>, b: seq<Entry>, c: Clock)
    ensures Timed(nested, a + b, c) ==
            match Timed(nested, a, c) case None => None case Some(d) => Timed(nested, b, d)
    decreases |a|
  {
    if a == [] {
      assert a + b == b;
    } else {
      assert (a + b)[1..] == a[1..] + b;
      if Advance(nested, c, a[0]).Some? {
        TimedAppend(nested, a[1..], b, Advance(nested, c, a[0]).value);
      }
    }
  }

  lemma {:induction false} TimedNothing(nested: bool, c: Clock)
    ensures Timed(nested, [], c) == Some(c)
  {
  }

  // ----- Open spans whose begin is still pending -----------------------------------------------

  /** Begin times of open spans; `None` for a pending call whose time the next flush decides. */
  type Stamps = seq<Option<nat>>

  function Known(open: seq<nat>): (st: Stamps)
    ensures |st| == |open|
  {
    seq(|open|, i requires 0 <= i < |open| => Some(open[i]))
  }

  predicate AllKnown(st: Stamps) {
    forall i :: 0 <= i < |st| ==> st[i].Some?
  }

  predicate KnownBy(st: Stamps, bound: nat) {
    forall i :: 0 <= i < |st| ==> st[i].Some? && st[i].value <= bound
  }

  predicate AtMost(open: seq<nat>, bound: nat) {
    forall i :: 0 <= i < |open| ==> open[i] <= bound
  }

  /** The first call of a batch gets the batch's own time; those after it do not know theirs yet. */
  function PushStamp(st: Stamps, at: nat, seen: bool): Stamps {
    st + [if seen then None else Some(at)]
  }

  function DropLast<T>(s: seq<T>): seq<T> {
    if s == [] then [] else s[..|s| - 1]
  }

  function StampsAfter(ev: PendingEvent, at: nat, st: Stamps, seen: bool): Stamps {
    match ev
    case PendingCall(_, _) => PushStamp(st, at, seen)
    case PendingRet(_) => DropLast(st)
    case PendingRetFromUntraced(_) => st
  }

  function PendingStamps(evs: seq<PendingEvent>, at: nat, st: Stamps, seen: bool): Stamps {
    if evs == [] then st
    else PendingStamps(evs[1..], at, StampsAfter(evs[0], at, st, seen), seen || evs[0].PendingCall?)
  }

  predicate EventOk(nested: bool, ev: PendingEvent, at: nat, st: Stamps) {
    match ev
    case PendingCall(_, _) => true
    case PendingRet(_) => st != []
    case PendingRetFromUntraced(reset) => reset <= at && (nested ==> KnownBy(st, reset))
  }

  predicate BatchOk(nested: bool, evs: seq<PendingEvent>, at: nat, st: Stamps, seen: bool) {
    evs == [] ||
    (EventOk(nested, evs[0], at, st) &&
     BatchOk(nested, evs[1..], at, StampsAfter(evs[0], at, st, seen), seen || evs[0].PendingCall?))
  }

  predicate HasClose(evs: seq<PendingEvent>) {
    exists i :: 0 <= i < |evs| && !evs[i].PendingCall?
  }

  predicate HasCall(evs: seq<PendingEvent>) {
    exists i :: 0 <= i < |evs| && evs[i].PendingCall?
  }

  lemma {:induction false} HasCallSplit(evs: seq<PendingEvent>)
    requires evs != []
    ensures HasCall(evs) == (evs[0].PendingCall? || HasCall(evs[1..]))
    ensures HasClose(evs) == (!evs[0].PendingCall? || HasClose(evs[1..]))
  {
    forall i | 1 <= i < |evs| ensures evs[1..][i - 1] == evs[i] {
    }
  }

  lemma {:induction false} BatchAppend(nested: bool, evs: seq<PendingEvent>, ev: PendingEvent, at: nat, st: Stamps,
      seen: bool)
    ensures var end := PendingStamps(evs, at, st, seen);
            PendingStamps(evs + [ev], at, st, seen) == StampsAfter(ev, at, end, seen || HasCall(evs)) &&
            (BatchOk(nested, evs + [ev], at, st, seen) <==>
             BatchOk(nested, evs, at, st, seen) && EventOk(nested, ev, at, end))
    decreases |evs|
  {
    if evs == [] {
      assert evs + [ev] == [ev] && [ev][1..] == [];
    } else {
      assert (evs + [ev])[1..] == evs[1..] + [ev];
      HasCallSplit(evs);
      BatchAppend(nested, evs[1..], ev, at, StampsAfter(evs[0], at, st, seen), seen || evs[0].PendingCall?);
    }
  }

  /** `open` gives every stamp a time: the known ones theirs, the others one no later than `limit`. */
  predicate Settles(open: seq<nat>, st: Stamps, limit: nat) {
    |open| == |st| &&
    forall i :: 0 <= i < |st| ==> if st[i].Some? then open[i] == st[i].value else open[i] <= limit
  }

  lemma {:induction false} SettlesLater(open: seq<nat>, st: Stamps, limit: nat, later: nat)
    requires Settles(open, st, limit) && limit <= later
    ensures Settles(open, st, later)
    ensures AtMost(open, limit) ==> AtMost(open, later)
  {
  }

  /** Writing out one pending event. */
  lemma {:induction false} EntryTimed(nested: bool, ev: PendingEvent, at: Word64, start: nat, st: Stamps,
      seen: bool, c: Clock, now: nat)
      returns (d: Clock)
    requires start <= at <= now && (!seen ==> at == start)
    requires EventOk(nested, ev, start, st)
    requires Settles(c.open, st, at) && AtMost(c.open, now) && c.lastClose <= now
    requires nested || !ev.PendingCall? ==> AtMost(c.open, at)
    requires !ev.PendingCall? ==> c.lastClose <= at
    ensures Timed(nested, EntriesOf(ev, at), c) == Some(d)
    ensures Settles(d.open, StampsAfter(ev, start, st, seen), at)
    ensures AtMost(d.open, now) && d.lastClose <= now
    ensures AtMost(c.open, at) ==> AtMost(d.open, at)
    ensures c.lastClose <= at ==> d.lastClose <= at
  {
    var out := EntriesOf(ev, at);
    match ev {
      case PendingCall(_, _) =>
        d := Clock(c.open + [at], c.lastClose);
        assert out[1..] == [];
        assert Advance(nested, c, out[0]) == Some(d);
      case PendingRet(_) =>
        d := Clock(c.open[..|c.open| - 1], at);
        assert out[1..] == [];
        assert Advance(nested, c, out[0]) == Some(d);
      case PendingRetFromUntraced(reset) =>
        d := Clock(c.open, at);
        UntracedTimed(nested, c, reset, at);
    }
  }

  /** Writing out a batch is well timed, and decides the stamps. */
  lemma {:induction false} SpreadTimed(nested: bool, evs: seq<PendingEvent>, at: Word64, left: nat,
                                       start: nat, st: Stamps, seen: bool, c: Clock, now: nat)
      returns (d: Clock)
    requires at + left < TWO_64 && start <= at && (!seen ==> at == start) && at + left <= now
    requires BatchOk(nested, evs, start, st, seen)
    requires Settles(c.open, st, at) && AtMost(c.open, now) && c.lastClose <= now
    requires (nested && evs != []) || HasClose(evs) ==> AtMost(c.open, at)
    requires HasClose(evs) ==> c.lastClose <= at
    ensures Timed(nested, Spread(evs, at, left), c) == Some(d)
    ensures Settles(d.open, PendingStamps(evs, start, st, seen), at + left)
    ensures AtMost(d.open, now) && d.lastClose <= now
    decreases |evs|
  {
    hide Timed, EventOk, StampsAfter, EntriesOf, Settles, AtMost, HasClose, HasCall;
    if evs == [] {
      d := c;
      TimedNothing(nested, c);
      SettlesLater(c.open, st, at, at + left);
    } else {
      var share := Share(evs, left);
      HasCallSplit(evs);
      TimedAppend(nested, EntriesOf(evs[0], at), Spread(evs[1..], at + share, left - share), c);
      var next := EntryTimed(nested, evs[0], at, start, st, seen, c, now);
      SettlesLater(next.open, StampsAfter(evs[0], start, st, seen), at, at + share);
      assert seen || evs[0].PendingCall? || share == 0;
      d := SpreadTimed(nested, evs[1..], at + share, left - share, start,
                       StampsAfter(evs[0], start, st, seen), seen || evs[0].PendingCall?, next, now);
    }
  }

  lemma {:induction false} UntracedTimed(nested: bool, c: Clock, reset: Word64, at: Word64)
    requires reset <= at && c.lastClose <= at
    requires nested ==> AtMost(c.open, reset)
    ensures Timed(nested, EntriesOf(PendingRetFromUntraced(reset), at), c) == Some(Clock(c.open, at))
  {
    var out := EntriesOf(PendingRetFromUntraced(reset), at);
    var mid := Clock(c.open + [reset], c.lastClose);
    assert Advance(nested, c, out[0]) == Some(mid);
    assert mid.open[..|mid.open| - 1] == c.open;
    assert Advance(nested, mid, out[1]) == Some(Clock(c.open, at));
    assert out[1..] == [out[1]];
    assert Timed(nested, [out[1]], mid) == Timed(nested, [], Clock(c.open, at));
  }

  // ----- The invariant ----------------------------------------------------------------------

  /** Each context's frames lie above those of the contexts it interrupted, which all began before
      it was created. */
  predicate ContextsOk(nested: bool, now: nat, contexts: seq<Callstack>, st: Stamps) {
    if contexts == [] then st == []
    else
      var top := contexts[|contexts| - 1];
      |top.stack| <= |st| && top.createTime <= now &&
      (nested ==> KnownBy(st[..|st| - |top.stack|], top.createTime)) &&
      ContextsOk(nested, now, contexts[..|contexts| - 1], st[..|st| - |top.stack|])
  }

  function ClockOf(nested: bool, t: ThreadState): Clock {
    match Timed(nested, t.written, START) case Some(c) => c case None => START
  }

  function StampsOf(nested: bool, t: ThreadState): Stamps {
    PendingStamps(t.pending, t.pendingTime, Known(ClockOf(nested, t).open), false)
  }

  predicate TimingInv(nested: bool, t: ThreadState, now: nat) {
    var c := ClockOf(nested, t);
    && Timed(nested, t.written, START).Some?
    && c.lastClose <= now && AtMost(c.open, now)
    && (t.pending != [] ==> t.pendingTime <= now)
    && (HasClose(t.pending) ==> c.lastClose <= t.pendingTime)
    && ((nested && t.pending != []) || HasClose(t.pending) ==> AtMost(c.open, t.pendingTime))
    && BatchOk(nested, t.pending, t.pendingTime, Known(c.open), false)
    && ContextsOk(nested, now, t.inactive + [t.callstack], StampsOf(nested, t))
  }

  /** Every frame's begin is decided, or will be before the current instant. */
  predicate Decided(nested: bool, t: ThreadState, now: nat) {
    t.pending != [] && t.pendingTime == now ==> AllKnown(StampsOf(nested, t))
  }

  /** `st'` keeps what `st` knows. */
  predicate Refines(st: Stamps, st': Stamps) {
    |st| == |st'| && forall i :: 0 <= i < |st| && st[i].Some? ==> st'[i] == st[i]
  }

  lemma {:induction false} ContextsRefine(nested: bool, now: nat, now': nat, contexts: seq<Callstack>, st: Stamps,
      st': Stamps)
    requires ContextsOk(nested, now, contexts, st) && Refines(st, st') && now <= now'
    ensures ContextsOk(nested, now', contexts, st')
    decreases |contexts|
  {
    if contexts != [] {
      var k := |st| - |contexts[|contexts| - 1].stack|;
      ContextsRefine(nested, now, now', contexts[..|contexts| - 1], st[..k], st'[..k]);
    }
  }

  lemma {:induction false} TimingLater(nested: bool, t: ThreadState, now: nat, now': nat)
    requires TimingInv(nested, t, now) && now <= now'
    ensures TimingInv(nested, t, now')
  {
    var st := StampsOf(nested, t);
    ContextsRefine(nested, now, now', t.inactive + [t.callstack], st, st);
  }

  // ----- Adding events ------------------------------------------------------------------------

  lemma {:induction false} FlushTiming(nested: bool, t: ThreadState, to: Word64, now: nat)
    requires TimingInv(nested, t, now) && to <= now
    ensures var f := Flush(t, to);
            TimingInv(nested, f, now) && Refines(StampsOf(nested, t), StampsOf(nested, f)) && f.pending == []
  {
    var f := Flush(t, to);
    if t.pending != [] {
      var c := ClockOf(nested, t);
      var left := Elapsed(t, to);
      var d := SpreadTimed(nested, t.pending, t.pendingTime, left, t.pendingTime, Known(c.open), false, c, now);
      TimedAppend(nested, t.written, Spread(t.pending, t.pendingTime, left), START);
      assert ClockOf(nested, f) == d;
      assert StampsOf(nested, f) == Known(d.open);
      ContextsRefine(nested, now, now, t.inactive + [t.callstack], StampsOf(nested, t), StampsOf(nested, f));
    }
  }

  /** The state `AddEvent` appends to: flushed unless the pending batch has the same time. */
  function Prepare(t: ThreadState, time: Word64): ThreadState {
    var f := if time != t.pendingTime && t.pending != [] then Flush(t, time) else t;
    f.(pendingTime := time)
  }

  lemma {:induction false} PrepareTiming(nested: bool, t: ThreadState, time: Word64, now: nat)
    requires TimingInv(nested, t, now) && time <= now
    ensures var f := Prepare(t, time);
            TimingInv(nested, f, now) && Refines(StampsOf(nested, t), StampsOf(nested, f)) &&
            f.callstack == t.callstack && f.inactive == t.inactive &&
            (f.pending == [] || f == t)
    ensures Decided(nested, t, now) && time == now ==> AllKnown(StampsOf(nested, Prepare(t, time)))
  {
    FlushTiming(nested, t, time, now);
  }

  /** Appending one event to a prepared batch. */
  lemma {:induction false} AppendTiming(nested: bool, f: ThreadState, ev: PendingEvent, cs: Callstack, now: nat)
    requires TimingInv(nested, f, now) && f.pendingTime <= now && cs.createTime == f.callstack.createTime
    requires EventOk(nested, ev, f.pendingTime, StampsOf(nested, f))
    requires nested || !ev.PendingCall? ==> AtMost(ClockOf(nested, f).open, f.pendingTime)
    requires !ev.PendingCall? ==> ClockOf(nested, f).lastClose <= f.pendingTime
    requires var st' := StampsAfter(ev, f.pendingTime, StampsOf(nested, f), HasCall(f.pending));
             |st'| - |cs.stack| == |StampsOf(nested, f)| - |f.callstack.stack|
    ensures var r := f.(pending := f.pending + [ev], callstack := cs);
            TimingInv(nested, r, now) &&
            StampsOf(nested, r) == StampsAfter(ev, f.pendingTime, StampsOf(nested, f), HasCall(f.pending))
  {
    var r := f.(pending := f.pending + [ev], callstack := cs);
    BatchAppend(nested, f.pending, ev, f.pendingTime, Known(ClockOf(nested, f).open), false);
    CloseOfAppend(f.pending, ev);
    TopContext(nested, f, now);
    ContextsGrow(nested, now, f.inactive, f.callstack, StampsOf(nested, f), cs, StampsOf(nested, r));
  }

  /** What the invariant says of the live context. */
  lemma {:induction false} TopContext(nested: bool, t: ThreadState, now: nat)
    requires TimingInv(nested, t, now)
    ensures var st := StampsOf(nested, t);
            |t.callstack.stack| <= |st| && t.callstack.createTime <= now &&
            (nested && t.callstack.stack == [] ==> KnownBy(st, t.callstack.createTime))
  {
    assert (t.inactive + [t.callstack])[|t.inactive|] == t.callstack;
    var st := StampsOf(nested, t);
    assert st[..|st|] == st;
  }

  lemma {:induction false} CallTiming(nested: bool, t: ThreadState, time: Word64, loc: Location,
      fromUntraced: bool, now: nat)
    requires TimingInv(nested, t, now)
    requires time == now || (time == t.callstack.createTime && t.callstack.stack == [])
    ensures TimingInv(nested, PushFrame(t, time, loc, fromUntraced), now)
  {
    TopContext(nested, t, now);
    PrepareTiming(nested, t, time, now);
    var f := Prepare(t, time);
    TopContext(nested, f, now);
    if nested && time != now && f.pending == [] {
      var open := ClockOf(nested, f).open;
      assert StampsOf(nested, f) == Known(open);
      forall i | 0 <= i < |open| ensures open[i] <= time {
        assert Known(open)[i] == Some(open[i]);
      }
    }
    AppendTiming(nested, f, PendingCall(loc, fromUntraced), f.callstack.(stack := t.callstack.stack + [loc]), now);
  }

  lemma {:induction false} CloseOfAppend(evs: seq<PendingEvent>, ev: PendingEvent)
    ensures HasClose(evs + [ev]) == (HasClose(evs) || !ev.PendingCall?)
    ensures HasCall(evs + [ev]) == (HasCall(evs) || ev.PendingCall?)
  {
    assert (evs + [ev])[|evs|] == ev;
    if HasClose(evs) {
      var i :| 0 <= i < |evs| && !evs[i].PendingCall?;
      assert (evs + [ev])[i] == evs[i];
    }
    if HasCall(evs) {
      var i :| 0 <= i < |evs| && evs[i].PendingCall?;
      assert (evs + [ev])[i] == evs[i];
    }
  }

  /** A change of the live stack's height, matched by the stamps, leaves the contexts below alone. */
  lemma {:induction false} ContextsGrow(nested: bool, now: nat, inactive: seq<Callstack>, cs: Callstack,
      st: Stamps, cs': Callstack,
      st': Stamps)
    requires ContextsOk(nested, now, inactive + [cs], st) && cs'.createTime == cs.createTime
    requires |st'| - |cs'.stack| == |st| - |cs.stack|
    requires forall i :: 0 <= i < |st| - |cs.stack| ==> st'[i] == st[i]
    ensures ContextsOk(nested, now, inactive + [cs'], st')
  {
    var k := |st| - |cs.stack|;
    assert (inactive + [cs])[..|inactive|] == inactive == (inactive + [cs'])[..|inactive|];
    assert st[..k] == st'[..k];
  }

  lemma {:induction false} RetTiming(nested: bool, t: ThreadState, time: Word64, now: nat)
    requires TimingInv(nested, t, now) && time == now
    ensures TimingInv(nested, PopFrame(t, time), now)
  {
    PrepareTiming(nested, t, time, now);
    var f := Prepare(t, time);
    TopContext(nested, f, now);
    var stack := t.callstack.stack;
    if stack != [] {
      var ev := PendingRet(stack[|stack| - 1].symbol);
      AppendTiming(nested, f, ev, f.callstack.(stack := stack[..|stack| - 1]), now);
      CloseOfAppend(f.pending, ev);
    } else {
      var ev := PendingRetFromUntraced(t.callstack.createTime);
      AppendTiming(nested, f, ev, f.callstack, now);
      CloseOfAppend(f.pending, ev);
    }
  }
}
