/** Late frames are the only reason why spans do not nest in time: once a context is entered while one
    is open, a return may come that makes an inferred frame begin before the late frame around it. */
module Nesting {
  import opened Texts
  import PE = PerfEvent
  import opened PerfEvent
  import opened ThreadMachine
  import opened StackDiscipline
  import opened Timing
  import opened SpanTiming

  // ----- Spans of a balanced log ----------------------------------------------------------------

  /** The span opened at `i` is closed at `m` or later if nothing before `m` has closed it. */
  lemma {:induction false} CloseOf(log: seq<Entry>, i: nat, m: nat) returns (j: nat)
    requires Balanced(Ops(log)) && i < m <= |log| && log[i].phase == Begin
    requires Replay(Ops(log[i + 1..m]), []).Some?
    ensures m <= j && Matched(log, i, j)
    decreases |log| - m
  {
    hide Replay, Balanced;
    var above := Replay(Ops(log[i + 1..m]), []).value;
    OpenStack(log, i, m);
    if m < |log| && above == [] && log[m].phase == Close {
      ReplayNext(log, m);
      assert Balanced(Ops(log[i + 1..m])) by {
        BalancedIs(log[i + 1..m]);
      }
      j := m;
    } else {
      ReplayNext(log, m);
      NextAbove(log, i, m);
      j := CloseOf(log, i, m + 1);
    }
  }

  lemma {:induction false} BalancedIs(log: seq<Entry>)
    requires Replay(Ops(log), []) == Some([])
    ensures Balanced(Ops(log))
  {
  }

  /** The stack at `m` is that at `i`, the span opened there, and what was opened since. */
  lemma {:induction false} OpenStack(log: seq<Entry>, i: nat, m: nat)
    requires Balanced(Ops(log)) && i < m <= |log| && log[i].phase == Begin
    requires Replay(Ops(log[i + 1..m]), []).Some?
    ensures Replay(Ops(log[..i]), []).Some?
    ensures Replay(Ops(log[..m]), []) ==
            Some(Replay(Ops(log[..i]), []).value + [log[i].symbol] + Replay(Ops(log[i + 1..m]), []).value)
    ensures m < |log|
  {
    hide Replay;
    ReplayPrefix(log, i);
    var below := Replay(Ops(log[..i]), []).value;
    var mid := log[i + 1..m];
    assert log[..m] == (log[..i] + [log[i]]) + mid;
    OpsAppend(log[..i] + [log[i]], mid);
    OpsAppend(log[..i], [log[i]]);
    ReplayAppend(Ops(log[..i]), Ops([log[i]]), []);
    assert Ops([log[i]]) == [Push(log[i].symbol)];
    ReplayPush(below, log[i].symbol);
    ReplayAppend(Ops(log[..i] + [log[i]]), Ops(mid), []);
    ReplayFrame(Ops(mid), below + [log[i].symbol], []);
    assert below + [log[i].symbol] + [] == below + [log[i].symbol];
    assert log[..|log|] == log;
    BalancedReplays(log);
  }

  lemma {:induction false} BalancedReplays(log: seq<Entry>)
    requires Balanced(Ops(log))
    ensures Replay(Ops(log), []) == Some([])
  {
  }

  lemma {:induction false} ReplayPush(stack: seq<Text>, s: Text)
    ensures Replay([Push(s)], stack) == Some(stack + [s])
  {
    assert [Push(s)][1..] == [];
  }

  /** A pop needs its symbol on top. */
  lemma {:induction false} ReplayOnePop(stack: seq<Text>, s: Text)
    ensures Replay([Pop(s)], stack) ==
            if stack != [] && stack[|stack| - 1] == s then Some(stack[..|stack| - 1]) else None
  {
    assert [Pop(s)][1..] == [];
  }

  lemma {:induction false} ReplayNext(log: seq<Entry>, m: nat)
    requires Balanced(Ops(log)) && m < |log|
    ensures Replay(Ops(log[..m]), []).Some?
    ensures log[m].phase == Close ==>
              var stack := Replay(Ops(log[..m]), []).value;
              stack != [] && stack[|stack| - 1] == log[m].symbol
  {
    hide Replay;
    ReplayPrefix(log, m);
    ReplayPrefix(log, m + 1);
    assert log[..m + 1] == log[..m] + [log[m]];
    OpsAppend(log[..m], [log[m]]);
    ReplayAppend(Ops(log[..m]), Ops([log[m]]), []);
    if log[m].phase == Close {
      assert Ops([log[m]]) == [Pop(log[m].symbol)];
      ReplayOnePop(Replay(Ops(log[..m]), []).value, log[m].symbol);
    }
  }

  lemma {:induction false} NextAbove(log: seq<Entry>, i: nat, m: nat)
    requires Balanced(Ops(log)) && i < m < |log| && log[i].phase == Begin
    requires Replay(Ops(log[i + 1..m]), []).Some?
    requires Replay(Ops(log[i + 1..m]), []).value != [] || log[m].phase == Begin
    ensures Replay(Ops(log[i + 1..m + 1]), []).Some?
  {
    hide Replay;
    var above := Replay(Ops(log[i + 1..m]), []).value;
    OpenStack(log, i, m);
    ReplayNext(log, m);
    assert log[i + 1..m + 1] == log[i + 1..m] + [log[m]];
    OpsAppend(log[i + 1..m], [log[m]]);
    ReplayAppend(Ops(log[i + 1..m]), Ops([log[m]]), []);
    if log[m].phase == Begin {
      assert Ops([log[m]]) == [Push(log[m].symbol)];
      ReplayPush(above, log[m].symbol);
    } else {
      assert Ops([log[m]]) == [Pop(log[m].symbol)];
      ReplayOnePop(above, log[m].symbol);
    }
  }

  /** A span that begins before one that is open around it spoils the nesting. */
  lemma {:induction false} EarlierInside(log: seq<Entry>, i: nat, k: nat)
    requires Balanced(Ops(log)) && i < k < |log| && log[i].phase == Begin && log[k].phase == Begin
    requires Replay(Ops(log[i + 1..k]), []).Some? && log[k].time < log[i].time
    ensures !SpansNested(log)
  {
    hide Balanced, SpansNested;
    assert log[k + 1..k + 1] == [];
    var l := CloseOf(log, k, k + 1);
    StillOpen(log, i, k, l);
    var j := CloseOf(log, i, l + 1);
    assert !SpansNested(log) by {
      NotNested(log, i, j, k, l);
    }
  }

  lemma {:induction false} NotNested(log: seq<Entry>, i: nat, j: nat, k: nat, l: nat)
    requires Matched(log, i, j) && Matched(log, k, l) && i < k && l < j && log[k].time < log[i].time
    ensures !SpansNested(log)
  {
    hide Balanced;
  }

  /** A span that was opened and closed since leaves the one opened at `i` open. */
  lemma {:induction false} StillOpen(log: seq<Entry>, i: nat, k: nat, l: nat)
    requires i < k && Matched(log, k, l) && Replay(Ops(log[i + 1..k]), []).Some?
    ensures Replay(Ops(log[i + 1..l + 1]), []).Some?
  {
    hide Replay, Balanced;
    var above := Replay(Ops(log[i + 1..k]), []).value;
    var inner := log[k + 1..l];
    var span := [log[k]] + inner + [log[l]];
    var s := log[k].symbol;
    assert log[i + 1..l + 1] == log[i + 1..k] + span;
    OpsAppend(log[i + 1..k], span);
    ReplayAppend(Ops(log[i + 1..k]), Ops(span), []);
    OpsAppend([log[k]] + inner, [log[l]]);
    OpsAppend([log[k]], inner);
    assert Ops([log[k]]) == [Push(s)] && Ops([log[l]]) == [Pop(s)];
    SpanReplay(Ops(inner), s, above);
  }

  lemma {:induction false} SpanReplay(inner: seq<Op>, s: Text, above: seq<Text>)
    requires Balanced(inner)
    ensures Replay([Push(s)] + inner + [Pop(s)], above) == Some(above)
  {
    ReplayAppend([Push(s)] + inner, [Pop(s)], above);
    ReplayAppend([Push(s)], inner, above);
    assert [Push(s)][1..] == [];
    ReplayFrame(inner, above + [s], []);
    assert above + [s] + [] == above + [s];
    ReplayPop(above, s);
  }

  // ----- A late frame's begin -------------------------------------------------------------------

  lemma {:induction false} ShareOfOne(n: nat)
    requires n > 0
    ensures Quotient(n, n) == 1
  {
    assert n / n == 1;
  }

  lemma {:induction false} SpreadStep(evs: seq<PendingEvent>, at: Word64, left: nat) returns (share: nat)
    requires evs != [] && at + left < TWO_64 && left == CountCalls(evs)
    ensures share == (if evs[0].PendingCall? then 1 else 0) && left - share == CountCalls(evs[1..])
    ensures Spread(evs, at, left) == EntriesOf(evs[0], at) + Spread(evs[1..], at + share, left - share)
  {
    share := Share(evs, left);
    if evs[0].PendingCall? {
      ShareOfOne(left);
    }
  }

  lemma {:induction false} FirstHasNone(evs: seq<PendingEvent>)
    ensures !HasCall(evs[..0])
  {
  }

  /** With a nanosecond for every call, a call behind another one begins after the batch's time. */
  lemma {:induction false} SpreadCall(evs: seq<PendingEvent>, at: Word64, left: nat, p: nat)
      returns (before: seq<Entry>, e: Entry, after: seq<Entry>)
    requires at + left < TWO_64 && left == CountCalls(evs) && p < |evs| && evs[p].PendingCall?
    ensures Spread(evs, at, left) == before + [e] + after
    ensures e.phase == Begin && at <= e.time && (HasCall(evs[..p]) ==> at < e.time)
    ensures Ops(after) == PendingOps(evs[p + 1..])
    decreases |evs|
  {
    hide Spread, CountCalls, Share, HasCall;
    var share := SpreadStep(evs, at, left);
    if p == 0 {
      FirstHasNone(evs);
      before, e, after := [], EntriesOf(evs[0], at)[0], Spread(evs[1..], at + share, left - share);
      SpreadOps(evs[1..], at + share, left - share);
      assert EntriesOf(evs[0], at) == [e] && [] + [e] == [e];
    } else {
      before, e, after := SpreadCall(evs[1..], at + share, left - share, p - 1);
      assert evs[1..][p..] == evs[p + 1..];
      assert evs[..p][1..] == evs[1..][..p - 1] && evs[..p][0] == evs[0];
      HasCallSplit(evs[..p]);
      assert EntriesOf(evs[0], at) + (before + [e] + after) == (EntriesOf(evs[0], at) + before) + [e] + after;
      before := EntriesOf(evs[0], at) + before;
    }
  }

  // ----- The return that spoils it --------------------------------------------------------------

  /** The handler returns to code that was never seen called, a nanosecond for every pending call later. */
  function SpoilingReturn(e: Event, n: nat): Event
    requires e.Ok? && e.timeNs + n < TWO_64
  {
    var loc := Location(0, UNKNOWN, 0);
    Ok(e.pid, e.tid, e.timeNs + n, Branch(BranchData(Some(PE.Return), Unchanged, false, loc, loc)))
  }

  /** What the log holds when the return's inferred frame has been written. */
  lemma {:induction false} AfterReturn(u: ThreadState, now: Word64, n: nat, dst: Location) returns (log: seq<Entry>)
    requires now + n < TWO_64 && n > 0 && |u.callstack.stack| == 1 && u.callstack.createTime == now
    requires u.pending != [] && u.pendingTime == now
    ensures log == u.written + Spread(u.pending, now, n) +
                   [Entry(Close, u.callstack.stack[0].symbol, now + n)] + [Entry(Begin, dst.symbol, now)]
    ensures Flush(CheckCurrentSymbol(PopFrame(u, now + n), now + n, dst), now + n).written == log
  {
    hide Spread;
    var symbol := u.callstack.stack[0].symbol;
    var p := PopFrame(u, now + n);
    assert p.pending == [PendingRet(symbol)] && p.written == u.written + Spread(u.pending, now, n);
    SpreadOne(PendingRet(symbol), now + n, 0);
    var c := PushFrame(p, now, dst, true);
    assert CheckCurrentSymbol(p, now + n, dst) == c;
    SpreadOne(PendingCall(dst, true), now, n);
    assert c.pending == [PendingCall(dst, true)];
    log := Flush(c, now + n).written;
  }

  lemma {:induction false} FinishExtends(t: ThreadState)
    ensures Flush(t, t.lastEventTime).written <= FinishThread(t).written
  {
    ClearAllGrows(Flush(t, t.lastEventTime), t.lastEventTime);
  }

  lemma {:induction false} Positions<T>(a: seq<T>, b: seq<T>, x: T, c: seq<T>, y: T, z: T, d: seq<T>)
    ensures var all := a + (b + [x] + c) + [y] + [z] + d;
            var i, k := |a| + |b|, |a| + |b| + |c| + 2;
            all[i] == x && all[k] == z && all[i + 1..k] == c + [y]
  {
    var all := a + (b + [x] + c) + [y] + [z] + d;
    assert all == (a + b) + ([x] + (c + [y]) + ([z] + d));
  }

  /** Wherever in the batch the late call is, the inferred frame is inside it and begins earlier. */
  lemma {:induction false} LateSpoils(u: ThreadState, now: Word64, n: nat, p: nat, dst: Location, log: seq<Entry>,
      more: seq<Entry>)
    requires u.pending != [] && u.pending[|u.pending| - 1].PendingCall? && n == CountCalls(u.pending) &&
             now + n < TWO_64
    requires Late(u.pending[..|u.pending| - 1], p)
    requires log == u.written + Spread(u.pending, now, n) +
                    [Entry(Close, u.pending[|u.pending| - 1].location.symbol, now + n)] +
                      [Entry(Begin, dst.symbol, now)]
    requires Balanced(Ops(log + more))
    ensures !SpansNested(log + more)
  {
    hide Spread, SpansNested, Balanced, Replay;
    var evs := u.pending;
    var m := |evs| - 1;
    assert evs[..m][..p] == evs[..p];
    var before, e, after := SpreadCall(evs, now, n, p);
    var close := Entry(Close, evs[m].location.symbol, now + n);
    var i, k := |u.written| + |before|, |log| - 1;
    var all := log + more;
    Positions(u.written, before, e, after, close, Entry(Begin, dst.symbol, now), more);
    OpsAppend(after, [close]);
    assert Ops([close]) == [Pop(close.symbol)];
    assert evs[p + 1..] == evs[..m][p + 1..] + [evs[m]];
    StaysOpen(evs[..m][p + 1..], evs[m]);
    EarlierInside(all, i, k);
  }

  lemma {:induction false} StaysOpen(evs: seq<PendingEvent>, call: PendingEvent)
    requires call.PendingCall? && Replay(PendingOps(evs), []).Some?
    ensures Replay(PendingOps(evs + [call]) + [Pop(call.location.symbol)], []).Some?
  {
    var s := call.location.symbol;
    var stack := Replay(PendingOps(evs), []).value;
    PendingOpsAppend(evs, call);
    ReplayAppend(PendingOps(evs + [call]), [Pop(s)], []);
    ReplayAppend(PendingOps(evs), Ops(EntriesOf(call, 0)), []);
    FirstReplay(call, stack);
    ReplayPop(stack, s);
  }

  /** The batch and the live stack right after a context is entered. */
  lemma {:induction false} Entered(t: ThreadState, base: Word64, e: Event)
    requires EntersContext(e)
    ensures var now := MapTime(base, e.timeNs);
            var a := AtEntry(t, base, e);
            var u := Step(t, base, e);
            u == PushFrame(Suspend(a, now), now, e.data.branch.dst) &&
            u.callstack == Callstack([e.data.branch.dst], now) &&
            (a.pending != [] && a.pendingTime == now ==>
               u.pending == a.pending + [PendingCall(e.data.branch.dst, false)] && u.pendingTime == now &&
                 u.written == a.written)
  {
    hide StartTrace;
  }

  lemma {:induction false} CountAppend(evs: seq<PendingEvent>, ev: PendingEvent)
    ensures CountCalls(evs + [ev]) == CountCalls(evs) + (if ev.PendingCall? then 1 else 0)
    decreases |evs|
  {
    if evs == [] {
      assert evs + [ev] == [ev] && [ev][1..] == [];
    } else {
      assert (evs + [ev])[1..] == evs[1..] + [ev];
      CountAppend(evs[1..], ev);
    }
  }

  /** There is room for every pending call, and the handler's, on the 64-bit clock. */
  predicate Room(t: ThreadState, base: Word64, e: Event)
    requires EntersContext(e)
  {
    e.timeNs + CountCalls(AtEntry(t, base, e).pending) + 1 < TWO_64
  }

  /** From any state in which a context is entered while a late frame is open, a return spoils the nesting. */
  lemma {:induction false} LateEntrySpoils(base: Word64, events: seq<Event>, e: Event) returns (more: seq<Event>)
    requires EntersContext(e) && InOrder(false, base, events + [e])
    requires var t := RunThread(FRESH_THREAD, base, events);
             Room(t, base, e) && !NoneLate(AtEntry(t, base, e), MapTime(base, e.timeNs))
    ensures GoesOn(base, events + [e], more) && !SpansNested(FinishedLog(base, events + [e] + more))
  {
    hide AtEntry, Step, RunThread, SpansNested, FinishedLog, InOrder, Late, CountCalls;
    var t := RunThread(FRESH_THREAD, base, events);
    var a, u := AtEntry(t, base, e), Step(t, base, e);
    var p: nat :| p < |a.pending| && Late(a.pending, p);
    Entered(t, base, e);
    CountAppend(a.pending, PendingCall(e.data.branch.dst, false));
    var n := CountCalls(u.pending);
    more := [SpoilingReturn(e, n)];
    LaterGoesOn(base, events, e, more[0]);
    InOrderTime(base, events, e);
    RunThreadAppend(FRESH_THREAD, base, events, [e]);
    RunSingle(t, base, e);
    assert u.pending[..|u.pending| - 1] == a.pending;
    ReturnSpoils(base, events + [e], e, p);
  }

  /** The return after a run that has just entered a context in the middle of a batch. */
  lemma {:induction false} ReturnSpoils(base: Word64, events: seq<Event>, e: Event, p: nat)
    requires e.Ok? && base <= e.timeNs
    requires var u := RunThread(FRESH_THREAD, base, events);
             var now := e.timeNs - base;
             u.pending != [] && u.pendingTime == now && u.callstack.createTime == now && |u.callstack.stack| == 1 &&
             u.pending[|u.pending| - 1] == PendingCall(u.callstack.stack[0], false) &&
             e.timeNs + CountCalls(u.pending) < TWO_64 && Late(u.pending[..|u.pending| - 1], p)
    ensures var n := CountCalls(RunThread(FRESH_THREAD, base, events).pending);
            !SpansNested(FinishedLog(base, events + [SpoilingReturn(e, n)]))
  {
    hide Step, RunThread, SpansNested, Spread, FinishThread, Late, CheckCurrentSymbol, PopFrame, Balanced, Flush;
    var u := RunThread(FRESH_THREAD, base, events);
    var now, n := e.timeNs - base, CountCalls(u.pending);
    var back := SpoilingReturn(e, n);
    HasOneCall(u.pending);
    RunThreadAppend(FRESH_THREAD, base, events, [back]);
    RunSingle(u, base, back);
    Returned(u, base, e, n);
    var l := u.(lastEventTime := now + n);
    var log := AfterReturn(l, now, n, back.data.branch.dst);
    FinishExtends(Step(u, base, back));
    var whole := FinishedLog(base, events + [back]);
    FinishedLogBalanced(base, events + [back]);
    assert whole == log + whole[|log|..];
    LateSpoils(l, now, n, p, back.data.branch.dst, log, whole[|log|..]);
  }

  lemma {:induction false} HasOneCall(evs: seq<PendingEvent>)
    requires evs != [] && evs[|evs| - 1].PendingCall?
    ensures CountCalls(evs) > 0
  {
    CountAppend(evs[..|evs| - 1], evs[|evs| - 1]);
    assert evs == evs[..|evs| - 1] + [evs[|evs| - 1]];
  }

  lemma {:induction false} InOrderTime(base: Word64, events: seq<Event>, e: Event)
    requires InOrder(false, base, events + [e]) && e.Relevant()
    ensures base <= e.Time() && MapTime(base, e.Time()) == e.Time() - base
  {
    assert (events + [e])[|events|] == e;
  }

  lemma {:induction false} Returned(u: ThreadState, base: Word64, e: Event, n: nat)
    requires e.Ok? && base <= e.timeNs && e.timeNs + n < TWO_64
    ensures var now := e.timeNs - base;
            var back := SpoilingReturn(e, n);
            var r := Step(u, base, back);
            r == CheckCurrentSymbol(PopFrame(u.(lastEventTime := now + n), now + n), now + n, back.data.branch.dst) &&
            r.lastEventTime == now + n
  {
    hide CheckCurrentSymbol, PopFrame;
    StepLast(u, base, SpoilingReturn(e, n));
  }

  /** The run goes on in order and enters no further context. */
  predicate GoesOn(base: Word64, events: seq<Event>, more: seq<Event>) {
    InOrder(false, base, events + more) && forall i :: 0 <= i < |more| ==> !EntersContext(more[i])
  }

  lemma {:induction false} LaterGoesOn(base: Word64, events: seq<Event>, e: Event, back: Event)
    requires InOrder(false, base, events + [e]) && e.Relevant()
    requires back.Relevant() && !EntersContext(back) && e.Time() <= back.Time()
    ensures GoesOn(base, events + [e], [back])
  {
    var all := events + [e] + [back];
    assert (events + [e])[|events|] == e;
    forall i | 0 <= i < |events| + 1 ensures all[i] == (events + [e])[i] {
    }
  }

  // ----- Main result ------------------------------------------------------------------------

  predicate RoomAtEntries(base: Word64, events: seq<Event>) {
    forall k :: 0 <= k < |events| && EntersContext(events[k]) ==>
      Room(RunThread(FRESH_THREAD, base, events[..k]), base, events[k])
  }

  lemma {:induction false} SettledGoesOn(base: Word64, events: seq<Event>, more: seq<Event>)
    requires Settled(base, events) && forall i :: 0 <= i < |more| ==> !EntersContext(more[i])
    ensures Settled(base, events + more)
  {
    hide NoneLate, AtEntry, RunThread;
    var all := events + more;
    forall k | |events| <= k < |all| ensures !EntersContext(all[k]) {
      assert all[k] == more[k - |events|];
    }
    forall k | 0 <= k < |all| && EntersContext(all[k])
      ensures NoneLate(AtEntry(RunThread(FRESH_THREAD, base, all[..k]), base, all[k]), MapTime(base, all[k].timeNs))
    {
      assert all[k] == events[k] && all[..k] == events[..k];
    }
  }

  /** Every span nests in time, at whatever point the run stops and however it then goes on without
      entering further contexts, if and only if no context is ever entered while a late frame is open. */
  lemma {:induction false} NestingExactly(base: Word64, events: seq<Event>)
    requires InOrder(false, base, events) && RoomAtEntries(base, events)
    ensures Settled(base, events) <==>
            forall k, more :: 0 <= k <= |events| && GoesOn(base, events[..k], more) ==>
              SpansNested(FinishedLog(base, events[..k] + more))
  {
    hide SpansNested, FinishedLog, NoneLate, AtEntry, RunThread, InOrder;
    if Settled(base, events) {
      forall k, more | 0 <= k <= |events| && GoesOn(base, events[..k], more)
        ensures SpansNested(FinishedLog(base, events[..k] + more))
      {
        SettledPrefix(base, events, k);
        SettledGoesOn(base, events[..k], more);
        SpansNest(base, events[..k] + more);
      }
    } else {
      var k :| 0 <= k < |events| && EntersContext(events[k]) &&
               !NoneLate(AtEntry(RunThread(FRESH_THREAD, base, events[..k]), base, events[k]),
                 MapTime(base, events[k].timeNs));
      assert events[..k + 1] == events[..k] + [events[k]];
      InOrderPrefix(false, base, events, k + 1);
      var more := LateEntrySpoils(base, events[..k], events[k]);
    }
  }
}
