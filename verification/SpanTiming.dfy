/** Every event keeps the timing invariant, and what that means for the spans of a whole run. */
module SpanTiming {
  import opened Texts
  import opened PerfEvent
  import opened ThreadMachine
  import opened StackDiscipline
  import opened Timing

  // ----- Operations at the current instant ------------------------------------------------------

  lemma {:induction false} CheckTiming(nested: bool, t: ThreadState, now: Word64, loc: Location)
    requires TimingInv(nested, t, now)
    ensures TimingInv(nested, CheckCurrentSymbol(t, now, loc), now)
  {
    if t.callstack.stack == [] {
      CallTiming(nested, t, t.callstack.createTime, loc, true, now);
    } else if !TopIs(t, loc.symbol) {
      RetTiming(nested, t, now, now);
      CallTiming(nested, PopFrame(t, now), now, loc, false, now);
    }
  }

  lemma {:induction false} PopFramesTiming(nested: bool, t: ThreadState, now: Word64, n: nat)
    requires TimingInv(nested, t, now)
    ensures TimingInv(nested, PopFrames(t, now, n), now)
    decreases n
  {
    if n > 0 {
      RetTiming(nested, t, now, now);
      PopFramesTiming(nested, PopFrame(t, now), now, n - 1);
    }
  }

  lemma {:induction false} PushFramesTiming(nested: bool, t: ThreadState, now: Word64, locs: seq<Location>)
    requires TimingInv(nested, t, now)
    ensures TimingInv(nested, PushFrames(t, now, locs), now)
    decreases |locs|
  {
    if locs != [] {
      var rest := locs[..|locs| - 1];
      PushFramesTiming(nested, t, now, rest);
      CallTiming(nested, PushFrames(t, now, rest), now, locs[|locs| - 1], false, now);
    }
  }

  lemma {:induction false} ResumeTiming(nested: bool, t: ThreadState, now: nat)
    requires TimingInv(nested, t, now) && t.callstack.stack == [] && t.inactive != []
    ensures TimingInv(nested, Resume(t), now)
  {
    var contexts := t.inactive + [t.callstack];
    var r := Resume(t);
    var st := StampsOf(nested, t);
    assert contexts[|contexts| - 1] == t.callstack;
    assert contexts[..|contexts| - 1] == t.inactive == r.inactive + [r.callstack];
    assert st[..|st|] == st;
  }

  /** Suspending needs every frame's begin decided by now. */
  lemma {:induction false} EnterTiming(nested: bool, t: ThreadState, now: Word64, dst: Location)
    requires TimingInv(nested, t, now) && (nested ==> Decided(nested, t, now))
    ensures TimingInv(nested, PushFrame(Suspend(t, now), now, dst), now)
  {
    PrepareTiming(nested, t, now, now);
    var f := Prepare(t, now);
    var s := Suspend(f, now);
    var st := StampsOf(nested, f);
    assert s.inactive + [s.callstack] == (f.inactive + [f.callstack]) + [s.callstack];
    assert (s.inactive + [s.callstack])[..|s.inactive|] == f.inactive + [f.callstack];
    assert st[..|st|] == st;
    if nested {
      StampsBounded(nested, f, now);
    }
    assert TimingInv(nested, s, now);
    assert Prepare(s, now) == s == Prepare(Suspend(t, now), now);
    CallTiming(nested, s, now, dst, false, now);
    assert PushFrame(s, now, dst) == PushFrame(Suspend(t, now), now, dst);
  }

  predicate StampsAtMost(st: Stamps, bound: nat) {
    forall i :: 0 <= i < |st| && st[i].Some? ==> st[i].value <= bound
  }

  lemma {:induction false} StampsBounded(nested: bool, t: ThreadState, now: nat)
    requires TimingInv(nested, t, now)
    ensures StampsAtMost(StampsOf(nested, t), now)
  {
    PendingStampsBounded(t.pending, t.pendingTime, Known(ClockOf(nested, t).open), false, now);
  }

  lemma {:induction false} PendingStampsBounded(evs: seq<PendingEvent>, at: nat, st: Stamps, seen: bool, now: nat)
    requires evs != [] ==> at <= now
    requires StampsAtMost(st, now)
    ensures StampsAtMost(PendingStamps(evs, at, st, seen), now)
    decreases |evs|
  {
    if evs != [] {
      var st' := StampsAfter(evs[0], at, st, seen);
      assert StampsAtMost(st', now);
      PendingStampsBounded(evs[1..], at, st', seen || evs[0].PendingCall?, now);
    }
  }

  lemma {:induction false} ClearAllTiming(nested: bool, t: ThreadState, now: Word64)
    requires TimingInv(nested, t, now)
    ensures TimingInv(nested, ClearAll(t, now), now)
    decreases |t.inactive|
  {
    var c := ClearCallstack(t, now);
    PopFramesKeep(t, now, |t.callstack.stack|);
    PopFramesTiming(nested, t, now, |t.callstack.stack|);
    if c.inactive != [] {
      ResumeTiming(nested, c, now);
      ClearAllTiming(nested, Resume(c), now);
    }
  }

  lemma {:induction false} LeaveTiming(nested: bool, t: ThreadState, now: Word64, dst: Location)
    requires TimingInv(nested, t, now)
    ensures TimingInv(nested, LeaveContext(t, now, dst), now)
  {
    var c := ClearCallstack(t, now);
    PopFramesKeep(t, now, |t.callstack.stack|);
    PopFramesTiming(nested, t, now, |t.callstack.stack|);
    if c.inactive != [] {
      ResumeTiming(nested, c, now);
      CheckTiming(nested, Resume(c), now, dst);
    } else {
      RestampTiming(nested, c, now);
    }
  }

  /** With no frame and no suspended context, the live context's creation time is free. */
  lemma {:induction false} RestampTiming(nested: bool, t: ThreadState, now: Word64)
    requires TimingInv(nested, t, now) && t.callstack.stack == [] && t.inactive == []
    ensures TimingInv(nested, t.(callstack := t.callstack.(createTime := now)), now)
  {
    hide BatchOk, PendingStamps, Timed;
    var r := t.(callstack := t.callstack.(createTime := now));
    LoneContext(nested, now, t.callstack, StampsOf(nested, t));
    LoneContext(nested, now, r.callstack, StampsOf(nested, t));
    assert StampsOf(nested, r) == StampsOf(nested, t);
    assert t.inactive + [t.callstack] == [t.callstack] && r.inactive + [r.callstack] == [r.callstack];
  }

  lemma {:induction false} LoneContext(nested: bool, now: nat, cs: Callstack, st: Stamps)
    requires cs.stack == []
    ensures ContextsOk(nested, now, [cs], st) <==> st == [] && cs.createTime <= now
  {
    assert [cs][..0] == [];
    assert st[..|st|] == st;
  }

  lemma {:induction false} TakeBranchTiming(nested: bool, t: ThreadState, now: Word64, kind: BranchKind,
      src: Location, dst: Location)
    requires TimingInv(nested, t, now)
    requires nested && (kind.Syscall? || kind.HardwareInterrupt?) ==> Decided(nested, t, now)
    ensures TimingInv(nested, TakeBranch(t, now, kind, src, dst), now)
  {
    match kind
    case Call =>
      CheckTiming(nested, t, now, src);
      CallTiming(nested, CheckCurrentSymbol(t, now, src), now, dst, false, now);
    case Return =>
      RetTiming(nested, t, now, now);
      CheckTiming(nested, PopFrame(t, now), now, dst);
    case Syscall => EnterTiming(nested, t, now, dst);
    case HardwareInterrupt => EnterTiming(nested, t, now, dst);
    case Iret => LeaveTiming(nested, t, now, dst);
    case Sysret => LeaveTiming(nested, t, now, dst);
    case _ => CheckTiming(nested, t, now, dst);
  }

  // ----- Late frames ------------------------------------------------------------------------

  /** The call at `p` comes behind another one of the same batch, so it begins only after a share of
      the time to come, and its frame is still open. */
  predicate Late(evs: seq<PendingEvent>, p: nat) {
    p < |evs| && evs[p].PendingCall? && HasCall(evs[..p]) && Replay(PendingOps(evs[p + 1..]), []).Some?
  }

  /** No frame is open that was called at this very instant behind another call. */
  predicate NoneLate(t: ThreadState, now: nat) {
    t.pending != [] && t.pendingTime == now ==> forall p: nat | p < |t.pending| :: !Late(t.pending, p)
  }

  lemma {:induction false} LateShifts(evs: seq<PendingEvent>, p: nat, seen: bool)
    requires evs != [] && p < |evs| - 1 && evs[p + 1].PendingCall?
    requires seen || evs[0].PendingCall? || HasCall(evs[1..][..p])
    requires Replay(PendingOps(evs[1..][p + 1..]), []).Some?
    ensures (seen || HasCall(evs[..p + 1])) && Replay(PendingOps(evs[p + 2..]), []).Some?
  {
    assert evs[1..][p + 1..] == evs[p + 2..];
    assert evs[..p + 1][1..] == evs[1..][..p] && evs[..p + 1][0] == evs[0];
    HasCallSplit(evs[..p + 1]);
  }

  /** An open frame without a known begin is a late one. */
  lemma {:induction false} UnknownIsLate(evs: seq<PendingEvent>, at: nat, st: Stamps, seen: bool, stack: seq<Text>,
      q: nat)
      returns (p: nat)
    requires |st| == |stack| && Replay(PendingOps(evs), stack).Some?
    requires q < |PendingStamps(evs, at, st, seen)| && PendingStamps(evs, at, st, seen)[q].None?
    ensures (q < |st| && st[q].None? && Replay(PendingOps(evs), stack[q + 1..]).Some?) ||
            (p < |evs| && evs[p].PendingCall? && (seen || HasCall(evs[..p])) &&
              Replay(PendingOps(evs[p + 1..]), []).Some?)
    decreases |evs|
  {
    p := 0;
    if evs != [] {
      var ops, rest := Ops(EntriesOf(evs[0], 0)), PendingOps(evs[1..]);
      assert PendingOps(evs) == ops + rest;
      ReplayAppend(ops, rest, stack);
      var st' := StampsAfter(evs[0], at, st, seen);
      var stack' := Replay(ops, stack).value;
      FirstReplay(evs[0], stack);
      var p' := UnknownIsLate(evs[1..], at, st', seen || evs[0].PendingCall?, stack', q);
      if q < |st'| && st'[q].None? && Replay(rest, stack'[q + 1..]).Some? {
        if q < |st| {
          ReplayAppend(ops, rest, stack[q + 1..]);
          ReplayAbove(evs[0], stack, q);
        } else {
          assert stack'[q + 1..] == [];
        }
      } else {
        LateShifts(evs, p', seen);
        p := p' + 1;
      }
    }
  }

  /** What one pending event does to a stack that has what it needs. */
  lemma {:induction false} FirstReplay(ev: PendingEvent, stack: seq<Text>)
    ensures Replay(Ops(EntriesOf(ev, 0)), stack) ==
            if ev.PendingCall? then Some(stack + [ev.location.symbol])
            else if ev.PendingRetFromUntraced? then Some(stack)
            else if stack != [] && stack[|stack| - 1] == ev.symbol then Some(stack[..|stack| - 1])
            else None
  {
    var ops := Ops(EntriesOf(ev, 0));
    if ev.PendingRetFromUntraced? {
      assert (stack + [UNKNOWN])[..|stack|] == stack;
      ReplayPushPop(stack, UNKNOWN);
      assert ops == [Push(UNKNOWN), Pop(UNKNOWN)];
    } else if ev.PendingCall? {
      assert ops == [Push(ev.location.symbol)] && ops[1..] == [];
    } else {
      assert ops == [Pop(ev.symbol)] && ops[1..] == [];
    }
  }

  lemma {:induction false} ReplayAbove(ev: PendingEvent, stack: seq<Text>, q: nat)
    requires Replay(Ops(EntriesOf(ev, 0)), stack).Some? && q < |stack| &&
             q < |Replay(Ops(EntriesOf(ev, 0)), stack).value|
    ensures Replay(Ops(EntriesOf(ev, 0)), stack[q + 1..]) == Some(Replay(Ops(EntriesOf(ev, 0)), stack).value[q + 1..])
  {
    hide Replay;
    FirstReplay(ev, stack);
    FirstReplay(ev, stack[q + 1..]);
    if ev.PendingCall? {
      assert stack[q + 1..] + [ev.location.symbol] == (stack + [ev.location.symbol])[q + 1..];
    } else if ev.PendingRet? {
      assert stack[q + 1..][..|stack| - q - 2] == stack[..|stack| - 1][q + 1..];
    }
  }

  lemma {:induction false} NoneLateDecided(t: ThreadState, now: nat)
    requires TimingInv(true, t, now) && Consistent(t) && NoneLate(t, now)
    ensures Decided(true, t, now)
  {
    if t.pending != [] && t.pendingTime == now {
      ReplayAppend(Ops(t.written), PendingOps(t.pending), []);
      var stack := Replay(Ops(t.written), []).value;
      var c := TimedFrame(true, t.written, START, []);
      var known := Known(c.open);
      forall q | 0 <= q < |StampsOf(true, t)| ensures StampsOf(true, t)[q].Some? {
        if StampsOf(true, t)[q].None? {
          var p := UnknownIsLate(t.pending, now, known, false, stack, q);
          assert Late(t.pending, p);
        }
      }
    }
  }

  /** Where a branch stands before its kind is acted on. */
  function Arrived(t: ThreadState, now: Word64, br: BranchData): ThreadState {
    if br.traceState == Start then StartTrace(t, now, br.dst) else t
  }

  lemma {:induction false} ArrivedConsistent(t: ThreadState, now: Word64, br: BranchData)
    requires Consistent(t)
    ensures Consistent(Arrived(t, now, br))
  {
    hide Consistent, PopFrame, CheckCurrentSymbol;
    if br.traceState == Start {
      RetConsistent(t, now);
      CheckCurrentSymbolConsistent(if TopIs(t, UNTRACED) then PopFrame(t, now) else t, now, br.dst);
    }
  }

  lemma {:induction false} BranchTiming(nested: bool, t: ThreadState, now: Word64, br: BranchData)
    requires TimingInv(nested, t, now) && Consistent(t)
    requires nested && (br.kind == Some(Syscall) || br.kind == Some(HardwareInterrupt)) && br.traceState != End ==>
               NoneLate(Arrived(t, now, br), now)
    ensures TimingInv(nested, ProcessBranch(t, now, br), now)
  {
    hide TimingInv, NoneLate, Consistent, CheckCurrentSymbol, TakeBranch;
    if br.traceState == End {
      CallTiming(nested, t, now, Location(0, UNTRACED, 0), false, now);
    } else {
      var s := t;
      if br.traceState == Start {
        var u := if TopIs(t, UNTRACED) then PopFrame(t, now) else t;
        RetTiming(nested, t, now, now);
        CheckTiming(nested, u, now, br.dst);
        s := StartTrace(t, now, br.dst);
      }
      if br.kind.Some? {
        if nested && (br.kind.value.Syscall? || br.kind.value.HardwareInterrupt?) {
          ArrivedConsistent(t, now, br);
          NoneLateDecided(s, now);
        }
        TakeBranchTiming(nested, s, now, br.kind.value, br.src, br.dst);
      }
    }
  }

  // ----- Runs -------------------------------------------------------------------------------

  /** No relevant event precedes the base time or an earlier one; with `strictEntries`, a syscall or
      hardware interrupt comes strictly later than every earlier event. */
  predicate InOrder(strictEntries: bool, base: Word64, events: seq<Event>) {
    && (forall i :: 0 <= i < |events| && events[i].Relevant() ==> base <= events[i].Time())
    && (forall i, j :: 0 <= i < j < |events| && events[i].Relevant() && events[j].Relevant() ==>
          events[i].Time() <= events[j].Time() &&
          (strictEntries && EntersContext(events[j]) ==> events[i].Time() < events[j].Time()))
  }

  /** The thread's state when an event that enters a context suspends the live one. */
  function AtEntry(t: ThreadState, base: Word64, e: Event): ThreadState
    requires EntersContext(e)
  {
    var now := MapTime(base, e.timeNs);
    Arrived(t.(lastEventTime := now), now, e.data.branch)
  }

  /** No event enters a context while a late frame is open. */
  predicate Settled(base: Word64, events: seq<Event>) {
    forall k :: 0 <= k < |events| && EntersContext(events[k]) ==>
      NoneLate(AtEntry(RunThread(FRESH_THREAD, base, events[..k]), base, events[k]), MapTime(base, events[k].timeNs))
  }

  lemma {:induction false} SettledPrefix(base: Word64, events: seq<Event>, n: nat)
    requires Settled(base, events) && n <= |events|
    ensures Settled(base, events[..n])
  {
    hide NoneLate, AtEntry, RunThread;
    forall k | 0 <= k < n && EntersContext(events[..n][k])
      ensures NoneLate(AtEntry(RunThread(FRESH_THREAD, base, events[..n][..k]), base, events[k]),
                MapTime(base, events[k].timeNs))
    {
      assert events[..n][k] == events[k] && events[..n][..k] == events[..k];
    }
  }

  lemma {:induction false} EventTiming(nested: bool, t: ThreadState, now: Word64, e: Event)
    requires e.Relevant() && TimingInv(nested, t.(lastEventTime := now), now) && Consistent(t)
    requires nested && EntersContext(e) ==> NoneLate(Arrived(t.(lastEventTime := now), now, e.data.branch), now)
    ensures TimingInv(nested, StepAt(t, now, e), now)
  {
    hide ProcessBranch, ClearAll, TimingInv, NoneLate, Arrived, Consistent, MatchCount, PushFrames, PopFrames;
    var l := t.(lastEventTime := now);
    SeenConsistent(t, now);
    match e
    case Ok(_, _, _, Branch(br)) => BranchTiming(nested, l, now, br);
    case Ok(_, _, _, StacktraceSample(sample)) =>
      var k := |l.callstack.stack| - MatchCount(l.callstack.stack, sample);
      PopFramesTiming(nested, l, now, k);
      PushFramesTiming(nested, PopFrames(l, now, k), now, sample[|l.callstack.stack| - k..]);
    case DecodeError(_, _, _, _, _) => ClearAllTiming(nested, l, now);
  }

  lemma {:induction false} StepTiming(nested: bool, t: ThreadState, base: Word64, e: Event)
    requires e.Relevant() && base <= e.Time()
    requires TimingInv(nested, t, t.lastEventTime) && t.lastEventTime <= e.Time() - base && Consistent(t)
    requires nested && EntersContext(e) ==> NoneLate(AtEntry(t, base, e), MapTime(base, e.timeNs))
    ensures TimingInv(nested, Step(t, base, e), e.Time() - base)
  {
    hide StepAt, ContextsOk, BatchOk, PendingStamps, Timed, NoneLate, Arrived, Consistent;
    var now := MapTime(base, e.Time());
    assert now == e.Time() - base;
    TimingLater(nested, t, t.lastEventTime, now);
    assert StampsOf(nested, t.(lastEventTime := now)) == StampsOf(nested, t);
    EventTiming(nested, t, now, e);
  }

  /** The last relevant event's mapped time is what the thread remembers. */
  lemma {:induction false} StepLast(t: ThreadState, base: Word64, e: Event)
    ensures Step(t, base, e).lastEventTime ==
            if e.Relevant() then MapTime(base, e.Time()) else t.lastEventTime
  {
    if e.Relevant() {
      var time := MapTime(base, e.Time());
      var l := t.(lastEventTime := time);
      match e
      case Ok(_, _, _, Branch(br)) => BranchLast(l, time, br);
      case Ok(_, _, _, StacktraceSample(sample)) =>
        var k := |l.callstack.stack| - MatchCount(l.callstack.stack, sample);
        PopFramesKeep(l, time, k);
        PushFramesKeep(PopFrames(l, time, k), time, sample[|l.callstack.stack| - k..]);
      case DecodeError(_, _, _, _, _) => ClearAllLast(l, time);
      case _ =>
    }
  }

  lemma {:induction false} CheckLast(t: ThreadState, time: Word64, loc: Location)
    ensures CheckCurrentSymbol(t, time, loc).lastEventTime == t.lastEventTime
  {
  }

  lemma {:induction false} TakeBranchLast(t: ThreadState, time: Word64, kind: BranchKind, src: Location, dst: Location)
    ensures TakeBranch(t, time, kind, src, dst).lastEventTime == t.lastEventTime
  {
    var c := ClearCallstack(t, time);
    PopFramesKeep(t, time, |t.callstack.stack|);
    match kind
    case Call => CheckLast(t, time, src);
    case Return => CheckLast(PopFrame(t, time), time, dst);
    case Syscall =>
    case HardwareInterrupt =>
    case Iret => if c.inactive != [] { CheckLast(Resume(c), time, dst); }
    case Sysret => if c.inactive != [] { CheckLast(Resume(c), time, dst); }
    case _ => CheckLast(t, time, dst);
  }

  lemma {:induction false} BranchLast(t: ThreadState, time: Word64, br: BranchData)
    ensures ProcessBranch(t, time, br).lastEventTime == t.lastEventTime
  {
    if br.traceState != End {
      var s := t;
      if br.traceState == Start {
        CheckLast(if TopIs(t, UNTRACED) then PopFrame(t, time) else t, time, br.dst);
        s := StartTrace(t, time, br.dst);
      }
      if br.kind.Some? {
        TakeBranchLast(s, time, br.kind.value, br.src, br.dst);
      }
    }
  }

  /** The thread is fresh, or remembers the time of some relevant event. */
  predicate Remembers(t: ThreadState, base: Word64, events: seq<Event>) {
    t == FRESH_THREAD ||
    exists i :: 0 <= i < |events| && events[i].Relevant() && t.lastEventTime == MapTime(base, events[i].Time())
  }

  lemma {:induction false} RunRemembers(base: Word64, events: seq<Event>)
    ensures Remembers(RunThread(FRESH_THREAD, base, events), base, events)
    decreases |events|
  {
    if events != [] {
      var n := |events| - 1;
      var before := events[..n];
      RunRemembers(base, before);
      var t := RunThread(FRESH_THREAD, base, before);
      StepLast(t, base, events[n]);
      if !events[n].Relevant() && t != FRESH_THREAD {
        var i :| 0 <= i < |before| && before[i].Relevant() && t.lastEventTime == MapTime(base, before[i].Time());
        assert events[i] == before[i];
      }
    }
  }

  lemma {:induction false} InOrderPrefix(strictEntries: bool, base: Word64, events: seq<Event>, n: nat)
    requires InOrder(strictEntries, base, events) && n <= |events|
    ensures InOrder(strictEntries, base, events[..n])
  {
  }

  lemma {:induction false} RunTiming(nested: bool, base: Word64, events: seq<Event>)
    requires InOrder(false, base, events) && (nested ==> Settled(base, events))
    ensures var t := RunThread(FRESH_THREAD, base, events);
            TimingInv(nested, t, t.lastEventTime)
    decreases |events|
  {
    hide TimingInv, StepAt, Consistent, NoneLate, AtEntry;
    if events == [] {
      FreshTiming(nested);
    } else {
      var n := |events| - 1;
      InOrderPrefix(false, base, events, n);
      if nested {
        SettledPrefix(base, events, n);
      }
      RunTiming(nested, base, events[..n]);
      ReachableConsistent(base, events[..n]);
      RunRemembers(base, events[..n]);
      var t := RunThread(FRESH_THREAD, base, events[..n]);
      StepLast(t, base, events[n]);
      if events[n].Relevant() {
        RememberedEarlier(false, t, base, events);
        StepTiming(nested, t, base, events[n]);
      }
    }
  }

  lemma {:induction false} RememberedEarlier(strictEntries: bool, t: ThreadState, base: Word64, events: seq<Event>)
    requires events != [] && InOrder(strictEntries, base, events) && Remembers(t, base, events[..|events| - 1])
    requires events[|events| - 1].Relevant()
    ensures var last := events[|events| - 1];
            t.lastEventTime <= last.Time() - base &&
            (strictEntries && EntersContext(last) ==> t == FRESH_THREAD || t.lastEventTime < last.Time() - base)
  {
    if t != FRESH_THREAD {
      var before := events[..|events| - 1];
      var i :| 0 <= i < |before| && before[i].Relevant() && t.lastEventTime == MapTime(base, before[i].Time());
      assert events[i] == before[i];
    }
  }

  lemma {:induction false} FreshTiming(nested: bool)
    ensures TimingInv(nested, FRESH_THREAD, 0)
  {
    var t := FRESH_THREAD;
    LoneContext(nested, 0, t.callstack, []);
    assert t.inactive + [t.callstack] == [t.callstack];
    assert StampsOf(nested, t) == [];
  }

  lemma {:induction false} FinishTiming(nested: bool, t: ThreadState)
    requires TimingInv(nested, t, t.lastEventTime)
    ensures Timed(nested, FinishThread(t).written, START).Some?
  {
    var now := t.lastEventTime;
    FlushTiming(nested, t, now, now);
    var f := Flush(t, now);
    ClearAllTiming(nested, f, now);
    FlushTiming(nested, ClearAll(f, now), now, now);
  }

  // ----- What a well-timed log means --------------------------------------------------------

  /** The event at `j` closes the span the event at `i` opened. */
  predicate Matched(log: seq<Entry>, i: nat, j: nat) {
    i < j < |log| && log[i].phase == Begin && log[j].phase == Close && log[i].symbol == log[j].symbol &&
    Balanced(Ops(log[i + 1..j]))
  }

  /** One entry changes the clock only at the innermost open span. */
  lemma {:induction false} AdvanceShape(nested: bool, c: Clock, e: Entry)
    requires Advance(nested, c, e).Some?
    ensures var d := Advance(nested, c, e).value;
            c.lastClose <= d.lastClose &&
            (if e.phase == Begin then |d.open| == |c.open| + 1 && d.open[..|c.open|] == c.open
             else c.open != [] && d.open == c.open[..|c.open| - 1]) &&
            (nested && Sorted(c.open) ==> Sorted(d.open))
  {
  }

  /** Reading a log piece that replays on its own leaves what was open before it. */
  lemma {:induction false} TimedFrame(nested: bool, log: seq<Entry>, c: Clock, stack: seq<Text>)
      returns (d: Clock)
    requires Timed(nested, log, c).Some? && Replay(Ops(log), stack).Some?
    requires |stack| <= |c.open|
    ensures Timed(nested, log, c) == Some(d)
    ensures var k := |c.open| - |stack|;
            |d.open| == k + |Replay(Ops(log), stack).value| && d.open[..k] == c.open[..k]
    ensures c.lastClose <= d.lastClose
    ensures nested && Sorted(c.open) ==> Sorted(d.open)
    decreases |log|
  {
    hide Advance, Sorted;
    if log == [] {
      d := c;
    } else {
      var next := Advance(nested, c, log[0]).value;
      AdvanceShape(nested, c, log[0]);
      assert Ops(log)[1..] == Ops(log[1..]);
      var stack' := if log[0].phase == Begin then stack + [log[0].symbol] else stack[..|stack| - 1];
      d := TimedFrame(nested, log[1..], next, stack');
      var k := |c.open| - |stack|;
      assert next.open[..k] == c.open[..k];
    }
  }

  predicate Sorted(open: seq<nat>) {
    forall i, j :: 0 <= i < j < |open| ==> open[i] <= open[j]
  }

  lemma {:induction false} TimedSplit(nested: bool, log: seq<Entry>, k: nat)
    requires Timed(nested, log, START).Some? && k < |log|
    ensures Timed(nested, log[..k], START).Some?
    ensures Advance(nested, Timed(nested, log[..k], START).value, log[k]).Some?
    ensures Timed(nested, log[..k + 1], START) == Advance(nested, Timed(nested, log[..k], START).value, log[k])
  {
    assert log == log[..k] + log[k..];
    TimedAppend(nested, log[..k], log[k..], START);
    assert log[..k + 1] == log[..k] + [log[k]];
    TimedAppend(nested, log[..k], [log[k]], START);
    assert [log[k]][1..] == [];
  }

  lemma {:induction false} ReplayPrefix(log: seq<Entry>, k: nat)
    requires Balanced(Ops(log)) && k <= |log|
    ensures Replay(Ops(log[..k]), []).Some?
  {
    assert log == log[..k] + log[k..];
    OpsAppend(log[..k], log[k..]);
    ReplayAppend(Ops(log[..k]), Ops(log[k..]), []);
  }

  /** The clock just before `j`, seen from a span open since `i`. */
  lemma {:induction false} ClockInside(nested: bool, log: seq<Entry>, i: nat, j: nat, k: nat)
      returns (ci: Clock, ck: Clock)
    requires Timed(nested, log, START).Some? && Balanced(Ops(log)) && Matched(log, i, j) && i < k <= j
    ensures Timed(nested, log[..i + 1], START) == Some(ci) && ci.open != [] && ci.open[|ci.open| - 1] == log[i].time
    ensures Timed(nested, log[..k], START) == Some(ck) && |ci.open| <= |ck.open| && ck.open[..|ci.open|] == ci.open
    ensures k == j ==> ck.open == ci.open
    ensures nested ==> Sorted(ck.open)
  {
    hide Replay, Timed;
    TimedSplit(nested, log, i);
    var c0 := Timed(nested, log[..i], START).value;
    ci := Advance(nested, c0, log[i]).value;
    var mid := log[i + 1..j];
    ReplayPrefix(mid, k - i - 1);
    assert mid[..k - i - 1] == log[i + 1..k];
    assert k == j ==> mid[..k - i - 1] == mid;
    assert log[..k] == log[..i + 1] + log[i + 1..k];
    TimedAppend(nested, log[..i + 1], log[i + 1..k], START);
    if k < |log| {
      TimedSplit(nested, log, k);
    }
    ck := TimedFrame(nested, log[i + 1..k], ci, []);
    ReplayPrefix(log, k);
    var ck' := TimedFrame(nested, log[..k], START, []);
  }

  /** A span ends no sooner than it begins. */
  lemma {:induction false} SpanDuration(nested: bool, log: seq<Entry>, i: nat, j: nat)
    requires Timed(nested, log, START).Some? && Balanced(Ops(log)) && Matched(log, i, j)
    ensures log[i].time <= log[j].time
  {
    var ci, cj := ClockInside(nested, log, i, j, j);
    TimedSplit(nested, log, j);
  }

  /** Ends never go back. */
  lemma {:induction false} ClosesMonotone(nested: bool, log: seq<Entry>, j: nat, l: nat)
    requires Timed(nested, log, START).Some? && Balanced(Ops(log))
    requires j < l < |log| && log[j].phase == Close && log[l].phase == Close
    ensures log[j].time <= log[l].time
  {
    hide Timed, Replay;
    TimedSplit(nested, log, j);
    TimedSplit(nested, log, l);
    var cj := Timed(nested, log[..j + 1], START).value;
    assert log[..l] == log[..j + 1] + log[j + 1..l];
    TimedAppend(nested, log[..j + 1], log[j + 1..l], START);
    ReplayPrefix(log, l);
    ReplayPrefix(log, j + 1);
    OpsAppend(log[..j + 1], log[j + 1..l]);
    ReplayAppend(Ops(log[..j + 1]), Ops(log[j + 1..l]), []);
    var c0 := TimedFrame(nested, log[..j + 1], START, []);
    var d := TimedFrame(nested, log[j + 1..l], cj, Replay(Ops(log[..j + 1]), []).value);
  }

  /** A span inside another one in the log lies inside it in time. */
  lemma {:induction false} SpanInside(log: seq<Entry>, i: nat, j: nat, k: nat, l: nat)
    requires Timed(true, log, START).Some? && Balanced(Ops(log))
    requires Matched(log, i, j) && Matched(log, k, l) && i < k && l < j
    ensures log[i].time <= log[k].time <= log[l].time <= log[j].time
  {
    var ci, ck := ClockInside(true, log, i, j, k);
    TimedSplit(true, log, k);
    assert ck.open[|ci.open| - 1] == ck.open[..|ci.open|][|ci.open| - 1];
    SpanDuration(true, log, k, l);
    ClosesMonotone(true, log, l, j);
  }

  /** Every span ends no sooner than it begins, and ends never go back. */
  ghost predicate EndsInOrder(log: seq<Entry>) {
    (forall i: nat, j: nat :: Matched(log, i, j) ==> log[i].time <= log[j].time) &&
    (forall j: nat, l: nat :: j < l < |log| && log[j].phase == Close && log[l].phase == Close ==>
       log[j].time <= log[l].time)
  }

  /** A span that lies inside another one in the log also lies inside it in time. */
  ghost predicate SpansNested(log: seq<Entry>) {
    forall i: nat, j: nat, k: nat, l: nat ::
      Matched(log, i, j) && Matched(log, k, l) && i < k && l < j ==>
      log[i].time <= log[k].time <= log[l].time <= log[j].time
  }

  lemma {:induction false} TimedMeansOrder(nested: bool, log: seq<Entry>)
    requires Timed(nested, log, START).Some? && Balanced(Ops(log))
    ensures EndsInOrder(log)
  {
    forall i: nat, j: nat | Matched(log, i, j) ensures log[i].time <= log[j].time {
      SpanDuration(nested, log, i, j);
    }
    forall j: nat, l: nat | j < l < |log| && log[j].phase == Close && log[l].phase == Close
      ensures log[j].time <= log[l].time
    {
      ClosesMonotone(nested, log, j, l);
    }
  }

  lemma {:induction false} TimedMeansNested(log: seq<Entry>)
    requires Timed(true, log, START).Some? && Balanced(Ops(log))
    ensures SpansNested(log)
  {
    hide Timed, Balanced;
    forall i: nat, j: nat, k: nat, l: nat | Matched(log, i, j) && Matched(log, k, l) && i < k && l < j
      ensures log[i].time <= log[k].time <= log[l].time <= log[j].time
    {
      hide Matched;
      SpanInside(log, i, j, k, l);
    }
  }

  // ----- Main results -----------------------------------------------------------------------

  function FinishedLog(base: Word64, events: seq<Event>): seq<Entry> {
    FinishThread(RunThread(FRESH_THREAD, base, events)).written
  }

  /** With input times that never go back, and none before the base, every span of the finished log
      ends no sooner than it begins and the log's ends never go back. */
  lemma {:induction false} DurationsAndEnds(base: Word64, events: seq<Event>)
    requires InOrder(false, base, events)
    ensures EndsInOrder(FinishedLog(base, events))
  {
    RunTiming(false, base, events);
    FinishTiming(false, RunThread(FRESH_THREAD, base, events));
    FinishedLogBalanced(base, events);
    TimedMeansOrder(false, FinishedLog(base, events));
  }

  /** When, besides, no syscall or hardware interrupt comes while a late frame is open, every span lies
      in time inside the span around it, inferred ones included. */
  lemma {:induction false} SpansNest(base: Word64, events: seq<Event>)
    requires InOrder(false, base, events) && Settled(base, events)
    ensures SpansNested(FinishedLog(base, events))
  {
    hide TimingInv, SpansNested, Settled, Timed, FinishThread, Balanced;
    RunTiming(true, base, events);
    FinishTiming(true, RunThread(FRESH_THREAD, base, events));
    FinishedLogBalanced(base, events);
    TimedMeansNested(FinishedLog(base, events));
  }

  // ----- Strictly later entries ---------------------------------------------------------------

  /** The batch has no call of this instant. */
  predicate Quiet(t: ThreadState, now: nat) {
    t.pending != [] && t.pendingTime == now ==> !HasCall(t.pending)
  }

  lemma {:induction false} OneCallNoneLate(t: ThreadState, calls: seq<PendingEvent>, ev: PendingEvent, now: nat)
    requires t.pending == calls + [ev] && (t.pendingTime == now ==> !HasCall(calls))
    ensures NoneLate(t, now)
  {
    if t.pendingTime == now {
      forall i | 0 <= i < |calls| ensures !t.pending[i].PendingCall? {
        assert calls[i] == t.pending[i];
      }
    }
  }

  lemma {:induction false} PushNoneLate(t: ThreadState, time: Word64, now: Word64, loc: Location, fromUntraced: bool)
    requires Quiet(t, now)
    ensures NoneLate(PushFrame(t, time, loc, fromUntraced), now)
  {
    var f := if time != t.pendingTime && t.pending != [] then Flush(t, time) else t;
    OneCallNoneLate(PushFrame(t, time, loc, fromUntraced), f.pending, PendingCall(loc, fromUntraced), now);
  }

  lemma {:induction false} PopQuiet(t: ThreadState, now: Word64)
    requires Quiet(t, now)
    ensures Quiet(PopFrame(t, now), now)
  {
    var f := if now != t.pendingTime && t.pending != [] then Flush(t, now) else t;
    var r := PopFrame(t, now);
    CloseOfAppend(f.pending, r.pending[|r.pending| - 1]);
  }

  lemma {:induction false} QuietNoneLate(t: ThreadState, now: nat)
    requires Quiet(t, now)
    ensures NoneLate(t, now)
  {
    forall p: nat | p < |t.pending| && HasCall(t.pending[..p]) ensures HasCall(t.pending) {
      var i :| 0 <= i < p && t.pending[..p][i].PendingCall?;
      assert t.pending[i].PendingCall?;
    }
  }

  lemma {:induction false} ArrivedNoneLate(t: ThreadState, now: Word64, br: BranchData)
    requires Quiet(t, now)
    ensures NoneLate(Arrived(t, now, br), now)
  {
    hide PushFrame, PopFrame, NoneLate, Quiet;
    var u := t;
    if br.traceState == Start {
      if TopIs(t, UNTRACED) {
        PopQuiet(t, now);
        u := PopFrame(t, now);
      }
      if u.callstack.stack == [] {
        PushNoneLate(u, u.callstack.createTime, now, br.dst, true);
      } else if !TopIs(u, br.dst.symbol) {
        PopQuiet(u, now);
        PushNoneLate(PopFrame(u, now), now, now, br.dst, false);
      } else {
        QuietNoneLate(u, now);
      }
    } else {
      QuietNoneLate(u, now);
    }
  }

  /** Entries strictly later than everything before them never meet a late frame. */
  lemma {:induction false} StrictIsSettled(base: Word64, events: seq<Event>)
    requires InOrder(true, base, events)
    ensures Settled(base, events)
  {
    hide NoneLate, Arrived, RunThread, TimingInv;
    forall k | 0 <= k < |events| && EntersContext(events[k])
      ensures NoneLate(AtEntry(RunThread(FRESH_THREAD, base, events[..k]), base, events[k]),
                MapTime(base, events[k].timeNs))
    {
      StrictEntry(base, events[..k + 1]);
      assert events[..k + 1][..k] == events[..k];
    }
  }

  lemma {:induction false} StrictEntry(base: Word64, events: seq<Event>)
    requires events != [] && InOrder(true, base, events) && EntersContext(events[|events| - 1])
    ensures var n := |events| - 1;
            NoneLate(AtEntry(RunThread(FRESH_THREAD, base, events[..n]), base, events[n]),
              MapTime(base, events[n].timeNs))
  {
    hide NoneLate, Arrived, RunThread;
    var n := |events| - 1;
    var t := RunThread(FRESH_THREAD, base, events[..n]);
    InOrderPrefix(false, base, events, n);
    RunTiming(false, base, events[..n]);
    RunRemembers(base, events[..n]);
    RememberedEarlier(true, t, base, events);
    var now := MapTime(base, events[n].timeNs);
    assert now == events[n].timeNs - base;
    ArrivedNoneLate(t.(lastEventTime := now), now, events[n].data.branch);
  }
}
