/** The log as stack operations: what every reachable thread state keeps, and balance at the end.

    Times play no part here. `Trace(t)` is the thread's log followed by its pending batch, read as
    pushes and pops; every function of the machine only appends to it. */
module StackDiscipline {
  import opened Texts
  import opened PerfEvent
  import opened ThreadMachine

  datatype Op = Push(symbol: Text) | Pop(symbol: Text)

  function OpOf(e: Entry): Op {
    if e.phase == Begin then Push(e.symbol) else Pop(e.symbol)
  }

  function Ops(log: seq<Entry>): (ops: seq<Op>)
    ensures |ops| == |log|
  {
    seq(|log|, i requires 0 <= i < |log| => OpOf(log[i]))
  }

  function PendingOps(evs: seq<PendingEvent>): seq<Op> {
    if evs == [] then [] else Ops(EntriesOf(evs[0], 0)) + PendingOps(evs[1..])
  }

  /** Everything the thread has logged or is about to log. */
  function Trace(t: ThreadState): seq<Op> {
    Ops(t.written) + PendingOps(t.pending)
  }

  /** Runs the operations on a stack of symbols. A pop of another symbol than the top, or of an
      empty stack, has no result. */
  function Replay(ops: seq<Op>, stack: seq<Text>): Option<seq<Text>> {
    if ops == [] then Some(stack)
    else
      match ops[0]
      case Push(s) => Replay(ops[1..], stack + [s])
      case Pop(s) =>
        if stack != [] && stack[|stack| - 1] == s then Replay(ops[1..], stack[..|stack| - 1]) else None
  }

  predicate Balanced(ops: seq<Op>) {
    Replay(ops, []) == Some([])
  }

  function Symbols(stack: seq<Location>): (s: seq<Text>)
    ensures |s| == |stack|
  {
    seq(|stack|, i requires 0 <= i < |stack| => stack[i].symbol)
  }

  function FlatContexts(contexts: seq<Callstack>): seq<Text> {
    if contexts == [] then []
    else FlatContexts(contexts[..|contexts| - 1]) + Symbols(contexts[|contexts| - 1].stack)
  }

  /** The suspended stacks, bottom first, followed by the live one. */
  function Flat(t: ThreadState): seq<Text> {
    FlatContexts(t.inactive) + Symbols(t.callstack.stack)
  }

  /** The step invariant. */
  predicate Consistent(t: ThreadState) {
    Replay(Trace(t), []) == Some(Flat(t))
  }

  // ----- Replay ----------------------------------------------------------------------------

  lemma {:induction false} ReplayAppend(a: seq<Op>, b: seq<Op>, stack: seq<Text>)
    ensures Replay(a + b, stack) ==
            match Replay(a, stack) case None => None case Some(s) => Replay(b, s)
    decreases |a|
  {
    if a == [] {
      assert a + b == b;
    } else {
      assert (a + b)[1..] == a[1..] + b;
      match a[0]
      case Push(s) => ReplayAppend(a[1..], b, stack + [s]);
      case Pop(s) =>
        if stack != [] && stack[|stack| - 1] == s {
          ReplayAppend(a[1..], b, stack[..|stack| - 1]);
        }
    }
  }

  /** Operations that succeed on a stack do the same on top of any other one. */
  lemma {:induction false} ReplayFrame(ops: seq<Op>, below: seq<Text>, stack: seq<Text>)
    requires Replay(ops, stack).Some?
    ensures Replay(ops, below + stack) == Some(below + Replay(ops, stack).value)
    decreases |ops|
  {
    if ops != [] {
      match ops[0]
      case Push(s) =>
        assert (below + stack) + [s] == below + (stack + [s]);
        ReplayFrame(ops[1..], below, stack + [s]);
      case Pop(s) =>
        assert (below + stack)[..|below + stack| - 1] == below + stack[..|stack| - 1];
        ReplayFrame(ops[1..], below, stack[..|stack| - 1]);
    }
  }

  lemma {:induction false} ReplayPop(stack: seq<Text>, s: Text)
    ensures Replay([Pop(s)], stack + [s]) == Some(stack)
  {
    assert (stack + [s])[..|stack|] == stack;
    assert Replay([], stack) == Some(stack);
  }

  lemma {:induction false} ReplayPushPop(stack: seq<Text>, s: Text)
    ensures Replay([Push(s), Pop(s)], stack) == Some(stack)
  {
    assert [Push(s), Pop(s)][1..] == [Pop(s)];
    ReplayPop(stack, s);
  }

  // ----- The machine only appends ------------------------------------------------------------

  lemma {:induction false} OpsAppend(a: seq<Entry>, b: seq<Entry>)
    ensures Ops(a + b) == Ops(a) + Ops(b)
  {
  }

  lemma {:induction false} PendingOpsAppend(evs: seq<PendingEvent>, ev: PendingEvent)
    ensures PendingOps(evs + [ev]) == PendingOps(evs) + Ops(EntriesOf(ev, 0))
    decreases |evs|
  {
    if evs == [] {
      assert evs + [ev] == [ev];
      assert PendingOps([ev]) == Ops(EntriesOf(ev, 0)) + PendingOps([]);
    } else {
      assert (evs + [ev])[1..] == evs[1..] + [ev];
      PendingOpsAppend(evs[1..], ev);
    }
  }

  /** Spreading a batch over time keeps its operations. */
  lemma {:induction false} SpreadOps(evs: seq<PendingEvent>, at: Word64, left: nat)
    requires at + left < TWO_64
    ensures Ops(Spread(evs, at, left)) == PendingOps(evs)
    decreases |evs|
  {
    if evs != [] {
      var share := Share(evs, left);
      SpreadOps(evs[1..], at + share, left - share);
      OpsAppend(EntriesOf(evs[0], at), Spread(evs[1..], at + share, left - share));
      assert Ops(EntriesOf(evs[0], at)) == Ops(EntriesOf(evs[0], 0));
    }
  }

  lemma {:induction false} FlushTrace(t: ThreadState, to: Word64)
    ensures Trace(Flush(t, to)) == Trace(t)
  {
    if t.pending != [] {
      SpreadOps(t.pending, t.pendingTime, Elapsed(t, to));
      OpsAppend(t.written, Spread(t.pending, t.pendingTime, Elapsed(t, to)));
    }
  }

  lemma {:induction false} AddEventTrace(t: ThreadState, time: Word64, ev: PendingEvent)
    ensures Trace(AddEvent(t, time, ev)) == Trace(t) + Ops(EntriesOf(ev, 0))
  {
    var f := if time != t.pendingTime && t.pending != [] then Flush(t, time) else t;
    FlushTrace(t, time);
    PendingOpsAppend(f.pending, ev);
  }

  lemma {:induction false} CallTrace(t: ThreadState, time: Word64, loc: Location, fromUntraced: bool)
    ensures Trace(PushFrame(t, time, loc, fromUntraced)) == Trace(t) + [Push(loc.symbol)]
  {
    AddEventTrace(t, time, PendingCall(loc, fromUntraced));
  }

  function RetOps(t: ThreadState): seq<Op> {
    var stack := t.callstack.stack;
    if stack != [] then [Pop(stack[|stack| - 1].symbol)] else [Push(UNKNOWN), Pop(UNKNOWN)]
  }

  lemma {:induction false} RetTrace(t: ThreadState, time: Word64)
    ensures Trace(PopFrame(t, time)) == Trace(t) + RetOps(t)
  {
    var stack := t.callstack.stack;
    if stack != [] {
      AddEventTrace(t, time, PendingRet(stack[|stack| - 1].symbol));
    } else {
      AddEventTrace(t, time, PendingRetFromUntraced(t.callstack.createTime));
    }
  }

  // ----- Every step keeps the invariant -------------------------------------------------------

  lemma {:induction false} FlushConsistent(t: ThreadState, to: Word64)
    requires Consistent(t)
    ensures Consistent(Flush(t, to))
  {
    FlushTrace(t, to);
  }

  lemma {:induction false} CallConsistent(t: ThreadState, time: Word64, loc: Location, fromUntraced: bool)
    requires Consistent(t)
    ensures Consistent(PushFrame(t, time, loc, fromUntraced))
  {
    CallTrace(t, time, loc, fromUntraced);
    ReplayAppend(Trace(t), [Push(loc.symbol)], []);
    assert Flat(PushFrame(t, time, loc, fromUntraced)) == Flat(t) + [loc.symbol];
  }

  lemma {:induction false} RetConsistent(t: ThreadState, time: Word64)
    requires Consistent(t)
    ensures Consistent(PopFrame(t, time))
  {
    RetTrace(t, time);
    ReplayAppend(Trace(t), RetOps(t), []);
    var r := PopFrame(t, time);
    var stack := t.callstack.stack;
    if stack != [] {
      assert Flat(t) == Flat(r) + [stack[|stack| - 1].symbol];
      ReplayPop(Flat(r), stack[|stack| - 1].symbol);
    } else {
      assert Flat(r) == Flat(t);
      ReplayPushPop(Flat(t), UNKNOWN);
    }
  }

  lemma {:induction false} CheckCurrentSymbolConsistent(t: ThreadState, time: Word64, loc: Location)
    requires Consistent(t)
    ensures Consistent(CheckCurrentSymbol(t, time, loc))
  {
    if t.callstack.stack == [] {
      CallConsistent(t, t.callstack.createTime, loc, true);
    } else if !TopIs(t, loc.symbol) {
      RetConsistent(t, time);
      CallConsistent(PopFrame(t, time), time, loc, false);
    }
  }

  lemma {:induction false} RetsConsistent(t: ThreadState, time: Word64, n: nat)
    requires Consistent(t)
    ensures Consistent(PopFrames(t, time, n))
    decreases n
  {
    if n > 0 {
      RetConsistent(t, time);
      RetsConsistent(PopFrame(t, time), time, n - 1);
    }
  }

  lemma {:induction false} ResumeConsistent(t: ThreadState)
    requires Consistent(t) && t.callstack.stack == [] && t.inactive != []
    ensures Consistent(Resume(t))
  {
    assert Flat(Resume(t)) == Flat(t);
  }

  lemma {:induction false} SuspendConsistent(t: ThreadState, time: Word64)
    requires Consistent(t)
    ensures Consistent(Suspend(t, time))
  {
    var s := Suspend(t, time);
    assert s.inactive[..|s.inactive| - 1] == t.inactive;
    assert Flat(s) == Flat(t);
  }

  lemma {:induction false} ClearAllConsistent(t: ThreadState, time: Word64)
    requires Consistent(t)
    ensures Consistent(ClearAll(t, time))
    ensures ClearAll(t, time).inactive == [] && ClearAll(t, time).callstack.stack == []
    ensures ClearAll(t, time).lastEventTime == t.lastEventTime
    decreases |t.inactive|
  {
    var c := ClearCallstack(t, time);
    RetsConsistent(t, time, |t.callstack.stack|);
    PopFramesKeep(t, time, |t.callstack.stack|);
    if c.inactive != [] {
      ResumeConsistent(c);
      ClearAllConsistent(Resume(c), time);
    }
  }

  lemma {:induction false} LeaveContextConsistent(t: ThreadState, time: Word64, dst: Location)
    requires Consistent(t)
    ensures Consistent(LeaveContext(t, time, dst))
  {
    var c := ClearCallstack(t, time);
    RetsConsistent(t, time, |t.callstack.stack|);
    PopFramesKeep(t, time, |t.callstack.stack|);
    if c.inactive != [] {
      ResumeConsistent(c);
      CheckCurrentSymbolConsistent(Resume(c), time, dst);
    }
  }

  lemma {:induction false} TakeBranchConsistent(t: ThreadState, time: Word64, kind: BranchKind, src: Location,
      dst: Location)
    requires Consistent(t)
    ensures Consistent(TakeBranch(t, time, kind, src, dst))
  {
    match kind
    case Call =>
      CheckCurrentSymbolConsistent(t, time, src);
      CallConsistent(CheckCurrentSymbol(t, time, src), time, dst, false);
    case Return =>
      RetConsistent(t, time);
      CheckCurrentSymbolConsistent(PopFrame(t, time), time, dst);
    case Syscall =>
      SuspendConsistent(t, time);
      CallConsistent(Suspend(t, time), time, dst, false);
    case HardwareInterrupt =>
      SuspendConsistent(t, time);
      CallConsistent(Suspend(t, time), time, dst, false);
    case Iret => LeaveContextConsistent(t, time, dst);
    case Sysret => LeaveContextConsistent(t, time, dst);
    case _ => CheckCurrentSymbolConsistent(t, time, dst);
  }

  lemma {:induction false} ProcessBranchConsistent(t: ThreadState, time: Word64, br: BranchData)
    requires Consistent(t)
    ensures Consistent(ProcessBranch(t, time, br))
  {
    if br.traceState == End {
      CallConsistent(t, time, Location(0, UNTRACED, 0), false);
    } else {
      var s := t;
      if br.traceState == Start {
        var u := if TopIs(t, UNTRACED) then PopFrame(t, time) else t;
        RetConsistent(t, time);
        CheckCurrentSymbolConsistent(u, time, br.dst);
        s := StartTrace(t, time, br.dst);
      }
      if br.kind.Some? {
        TakeBranchConsistent(s, time, br.kind.value, br.src, br.dst);
      }
    }
  }

  lemma {:induction false} CallsConsistent(t: ThreadState, time: Word64, locs: seq<Location>)
    requires Consistent(t)
    ensures Consistent(PushFrames(t, time, locs))
    decreases |locs|
  {
    if locs != [] {
      CallsConsistent(t, time, locs[..|locs| - 1]);
      CallConsistent(PushFrames(t, time, locs[..|locs| - 1]), time, locs[|locs| - 1], false);
    }
  }

  lemma {:induction false} SeenConsistent(t: ThreadState, time: Word64)
    requires Consistent(t)
    ensures Consistent(t.(lastEventTime := time))
  {
    assert Flat(t.(lastEventTime := time)) == Flat(t);
  }

  lemma {:induction false} StepConsistent(t: ThreadState, base: Word64, e: Event)
    requires Consistent(t)
    ensures Consistent(Step(t, base, e))
  {
    hide Consistent, ProcessBranch, ClearAll, PushFrames, PopFrames, MatchCount;
    if e.Relevant() {
      var time := MapTime(base, e.Time());
      var l := t.(lastEventTime := time);
      SeenConsistent(t, time);
      match e
      case Ok(_, _, _, Branch(br)) => ProcessBranchConsistent(l, time, br);
      case Ok(_, _, _, StacktraceSample(sample)) =>
        var m := MatchCount(l.callstack.stack, sample);
        RetsConsistent(l, time, |l.callstack.stack| - m);
        CallsConsistent(PopFrames(l, time, |l.callstack.stack| - m), time, sample[m..]);
      case DecodeError(_, _, _, _, _) => ClearAllConsistent(l, time);
      case _ =>
    }
  }

  // ----- Main results -----------------------------------------------------------------------

  /** In every reachable state the log and the pending batch replay, without an underflow or a
      mismatched pop, to exactly the suspended stacks followed by the live one. */
  lemma {:induction false} ReachableConsistent(base: Word64, events: seq<Event>)
    ensures Consistent(RunThread(FRESH_THREAD, base, events))
    decreases |events|
  {
    if events == [] {
      assert Flat(FRESH_THREAD) == [];
    } else {
      ReachableConsistent(base, events[..|events| - 1]);
      StepConsistent(RunThread(FRESH_THREAD, base, events[..|events| - 1]), base, events[|events| - 1]);
    }
  }

  lemma {:induction false} FinishConsistent(t: ThreadState)
    requires Consistent(t)
    ensures var d := FinishThread(t);
            d.pending == [] && d.inactive == [] && d.callstack.stack == [] && Balanced(Ops(d.written))
  {
    var last := t.lastEventTime;
    FlushConsistent(t, last);
    ClearAllConsistent(Flush(t, last), last);
    var c := ClearAll(Flush(t, last), last);
    FlushConsistent(c, last);
    var d := FinishThread(t);
    assert Flat(d) == [];
    assert Trace(d) == Ops(d.written);
  }

  /** Whatever a thread's events are, after `finish` its log is balanced and properly nested. */
  lemma {:induction false} FinishedLogBalanced(base: Word64, events: seq<Event>)
    ensures var d := FinishThread(RunThread(FRESH_THREAD, base, events));
            d.pending == [] && Balanced(Ops(d.written))
  {
    ReachableConsistent(base, events);
    FinishConsistent(RunThread(FRESH_THREAD, base, events));
  }
}
