/** Where the timing results stop: a syscall at the very time of the call before it. */
module TimingLimits {
  import opened Texts
  import PE = PerfEvent
  import opened PerfEvent
  import opened ThreadMachine
  import opened StackDiscipline
  import opened SpanTiming

  function Named(symbol: Text): Location {
    Location(0, symbol, 0)
  }

  function BranchAt(time: Word64, kind: BranchKind, src: Text, dst: Text): Event {
    Ok(1, 1, time, Branch(BranchData(Some(kind), Unchanged, false, Named(src), Named(dst))))
  }

  const CALLS := BranchAt(0, PE.Call, "main", "f")
  const ENTERS := BranchAt(0, PE.Syscall, "f", "sys")
  const RETURNS := BranchAt(30, PE.Return, "sys", "h")

  /** `main` calls `f` and `f` makes a syscall at one instant; later the handler returns to `h`, which
      was never seen called. */
  const EQUAL_TIMES := [CALLS, ENTERS, RETURNS]

  /** `f` and the handler get later shares of the batch, but `h` is stamped with the creation time of
      the handler's context. */
  const ITS_LOG := [
    Entry(Begin, "main", 0), Entry(Begin, "f", 10), Entry(Begin, "sys", 20), Entry(Close, "sys", 30),
    Entry(Begin, "h", 0), Entry(Close, "h", 30), Entry(Close, "f", 30), Entry(Close, "main", 30)]

  const OUTER := Callstack([Named("main"), Named("f")], 0)
  const FIRST := [PendingCall(Named("main"), true), PendingCall(Named("f"), false)]
  const BATCH := FIRST + [PendingCall(Named("sys"), false)]

  lemma {:induction false} RunNext(events: seq<Event>, e: Event)
    ensures RunThread(FRESH_THREAD, 0, events + [e]) == Step(RunThread(FRESH_THREAD, 0, events), 0, e)
  {
    assert (events + [e])[..|events|] == events;
  }

  lemma {:induction false} AfterCall()
    ensures RunThread(FRESH_THREAD, 0, [CALLS]) == ThreadState(OUTER, [], FIRST, 0, 0, [])
  {
    RunNext([], CALLS);
    assert [] + [CALLS] == [CALLS];
    var one := PushFrame(FRESH_THREAD, 0, Named("main"), true);
    assert one.pending == FIRST[..1] && one.callstack.stack == OUTER.stack[..1];
    assert CheckCurrentSymbol(FRESH_THREAD, 0, Named("main")) == one;
  }

  lemma {:induction false} AfterSyscall()
    ensures RunThread(FRESH_THREAD, 0, [CALLS, ENTERS]) ==
            ThreadState(Callstack([Named("sys")], 0), [OUTER], BATCH, 0, 0, [])
  {
    AfterCall();
    RunNext([CALLS], ENTERS);
    assert [CALLS] + [ENTERS] == [CALLS, ENTERS];
  }

  lemma {:induction false} SpreadThree(a: Location, b: Location, c: Location, u: bool, v: bool, w: bool)
    ensures Spread([PendingCall(a, u), PendingCall(b, v), PendingCall(c, w)], 0, 30) ==
            [Entry(Begin, a.symbol, 0), Entry(Begin, b.symbol, 10), Entry(Begin, c.symbol, 20)]
  {
    var evs := [PendingCall(a, u), PendingCall(b, v), PendingCall(c, w)];
    assert evs[1..] == [evs[1], evs[2]] && evs[1..][1..] == [evs[2]] && [evs[2]][1..] == [];
    assert CountCalls([evs[2]]) == 1 && CountCalls(evs[1..]) == 2 && CountCalls(evs) == 3;
    assert Share(evs, 30) == 10 && Share(evs[1..], 20) == 10;
    SpreadOne(evs[2], 20, 10);
    assert Spread(evs[1..], 10, 20) == EntriesOf(evs[1], 10) + Spread([evs[2]], 20, 10);
  }

  lemma {:induction false} AfterReturn()
    ensures RunThread(FRESH_THREAD, 0, EQUAL_TIMES) ==
            ThreadState(Callstack([Named("h")], 0), [OUTER], [PendingCall(Named("h"), true)], 0, 30, ITS_LOG[..4])
  {
    hide Spread, RunThread;
    AfterSyscall();
    RunNext([CALLS, ENTERS], RETURNS);
    assert [CALLS, ENTERS] + [RETURNS] == EQUAL_TIMES;
    var t := ThreadState(Callstack([Named("sys")], 0), [OUTER], BATCH, 0, 30, []);
    SpreadThree(Named("main"), Named("f"), Named("sys"), true, false, false);
    assert BATCH ==
           [PendingCall(Named("main"), true), PendingCall(Named("f"), false), PendingCall(Named("sys"), false)];
    var p := PopFrame(t, 30);
    assert p == ThreadState(Callstack([], 0), [OUTER], [PendingRet("sys")], 30, 30, ITS_LOG[..3]);
    SpreadOne(PendingRet("sys"), 30, 0);
    assert PushFrame(p, 0, Named("h"), true).written == ITS_LOG[..4];
  }

  lemma {:induction false} ItsLog()
    ensures FinishedLog(0, EQUAL_TIMES) == ITS_LOG
  {
    hide RunThread;
    AfterReturn();
    var t := RunThread(FRESH_THREAD, 0, EQUAL_TIMES);
    SpreadOne(t.pending[0], 0, 30);
    Unwind(Flush(t, 30));
  }

  lemma {:induction false} Unwind(f: ThreadState)
    requires f == ThreadState(Callstack([Named("h")], 0), [OUTER], [], 30, 30, ITS_LOG[..5])
    ensures Flush(ClearAll(f, 30), 30).written == ITS_LOG
  {
    hide Spread;
    var h := PopFrame(f, 30);
    assert ClearCallstack(f, 30) == PopFrames(h, 30, 0) == h;
    var r := Resume(h);
    var u := PopFrame(r, 30);
    var v := PopFrame(u, 30);
    assert ClearCallstack(r, 30) == PopFrames(u, 30, 1) == PopFrames(v, 30, 0) == v;
    assert ClearAll(f, 30) == ClearAll(r, 30) == v;
    var last := [PendingRet("h"), PendingRet("f"), PendingRet("main")];
    assert v.pending == last && v.pendingTime == 30 && v.written == ITS_LOG[..5];
    assert Spread(last, 30, 0) == ITS_LOG[5..] by {
      ThreeReturns("h", "f", "main");
    }
  }

  lemma {:induction false} ThreeReturns(a: Text, b: Text, c: Text)
    ensures Spread([PendingRet(a), PendingRet(b), PendingRet(c)], 30, 0) ==
            [Entry(Close, a, 30), Entry(Close, b, 30), Entry(Close, c, 30)]
  {
    SpreadOne(PendingRet(c), 30, 0);
    var evs := [PendingRet(a), PendingRet(b), PendingRet(c)];
    assert evs[1..] == [PendingRet(b), PendingRet(c)] && evs[1..][1..] == [PendingRet(c)];
  }

  lemma {:induction false} BalancedPair(s: Text, rest: seq<Op>)
    requires Balanced(rest)
    ensures Balanced([Push(s), Pop(s)] + rest)
  {
    var ops := [Push(s), Pop(s)] + rest;
    assert ops[1..][1..] == rest && ([] + [s])[..0] == [];
  }

  /** Times that never go back are not enough for spans to nest in time: here the span of `h` begins
      before the span of `f` around it does, so begins do go back. */
  lemma {:induction false} EqualTimesBreakNesting()
    ensures InOrder(false, 0, EQUAL_TIMES) && !InOrder(true, 0, EQUAL_TIMES)
    ensures !SpansNested(FinishedLog(0, EQUAL_TIMES))
  {
    hide RunThread, FinishThread, Balanced, Replay, Step;
    ItsLog();
    var log := ITS_LOG;
    assert EntersContext(EQUAL_TIMES[1]) && EQUAL_TIMES[0].Relevant() && EQUAL_TIMES[0].Time() == EQUAL_TIMES[1].Time();
    assert Balanced([]) by {
      BalancedNothing();
    }
    BalancedPair("h", []);
    assert [Push("h"), Pop("h")] + [] == [Push("h"), Pop("h")];
    BalancedPair("sys", [Push("h"), Pop("h")]);
    assert Ops(log[5..5]) == [] && Ops(log[2..6]) == [Push("sys"), Pop("sys")] + [Push("h"), Pop("h")];
    assert Matched(log, 4, 5) && Matched(log, 1, 6);
    assert log[1].time > log[4].time;
  }

  lemma {:induction false} BalancedNothing()
    ensures Balanced([])
  {
  }
}
