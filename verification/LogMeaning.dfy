/** What the events mean for a thread's log: every event makes marks, each at an instant of its own,
    and once all marks are known they are laid out run by run, a run of marks at one instant being
    spread evenly over the time up to the next. The thread machine, which never looks ahead and holds
    back one batch at a time, writes exactly this log. */
module LogMeaning {
  import opened Texts
  import opened PerfEvent
  import opened ThreadMachine
  import opened StackDiscipline
  import opened StackMeaning
  import opened Samples
  import opened Apportionment
  import SpanTiming

  datatype Mark = Mark(at: Word64, ev: PendingEvent)

  function Opens(symbol: Text, at: Word64): Mark {
    Mark(at, PendingCall(Location(0, symbol, 0), false))
  }

  function Closes(symbol: Text, at: Word64): Mark {
    Mark(at, PendingRet(symbol))
  }

  // ----- The marks an event makes ---------------------------------------------------------------

  function CheckMarks(c: Context, time: Word64, dst: Text): seq<Mark> {
    if c.frames == [] then [Opens(dst, c.since)]
    else
      var top := c.frames[|c.frames| - 1];
      if top == dst then [] else [Closes(top, time), Opens(dst, time)]
  }

  function ReturnMarks(c: Context, time: Word64): seq<Mark> {
    if c.frames == [] then [Mark(time, PendingRetFromUntraced(c.since))]
    else [Closes(c.frames[|c.frames| - 1], time)]
  }

  /** Closes the top `n` frames. */
  function CloseMarks(frames: seq<Text>, n: nat, time: Word64): seq<Mark>
    requires n <= |frames|
  {
    if n == 0 then [] else [Closes(frames[|frames| - 1], time)] + CloseMarks(Under(frames), n - 1, time)
  }

  function OpenMarks(symbols: seq<Text>, time: Word64): seq<Mark> {
    if symbols == [] then []
    else OpenMarks(Under(symbols), time) + [Opens(symbols[|symbols| - 1], time)]
  }

  function CloseAllMarks(cs: seq<Context>, time: Word64): seq<Mark> {
    if cs == [] then []
    else
      var c := cs[|cs| - 1];
      CloseMarks(c.frames, |c.frames|, time) + CloseAllMarks(cs[..|cs| - 1], time)
  }

  function LeaveMarks(cs: seq<Context>, time: Word64, dst: Text): seq<Mark>
    requires cs != []
  {
    CloseMarks(Live(cs).frames, |Live(cs).frames|, time) +
    (if |cs| == 1 then [] else CheckMarks(cs[|cs| - 2], time, dst))
  }

  function TakenMarks(cs: seq<Context>, time: Word64, kind: BranchKind, src: Text, dst: Text): seq<Mark>
    requires cs != []
  {
    var c := Live(cs);
    match kind
    case Call => CheckMarks(c, time, src) + [Opens(dst, time)]
    case Return => ReturnMarks(c, time) + CheckMarks(c.(frames := Under(c.frames)), time, dst)
    case Syscall => [Opens(dst, time)]
    case HardwareInterrupt => [Opens(dst, time)]
    case Sysret => LeaveMarks(cs, time, dst)
    case Iret => LeaveMarks(cs, time, dst)
    case _ => CheckMarks(c, time, dst)
  }

  function StartMarks(c: Context, time: Word64, dst: Text): seq<Mark> {
    if c.frames != [] && c.frames[|c.frames| - 1] == "[untraced]" then
      [Closes("[untraced]", time)] + CheckMarks(c.(frames := Under(c.frames)), time, dst)
    else CheckMarks(c, time, dst)
  }

  function BranchMarks(cs: seq<Context>, time: Word64, br: BranchData): seq<Mark>
    requires cs != []
  {
    var c := Live(cs);
    if br.traceState == End then [Opens("[untraced]", time)]
    else
      var started := if br.traceState == Start then SetLive(cs, Resumed(c.frames, br.dst.symbol)) else cs;
      (if br.traceState == Start then StartMarks(c, time, br.dst.symbol) else []) +
      (if br.kind.None? then [] else TakenMarks(started, time, br.kind.value, br.src.symbol, br.dst.symbol))
  }

  function SampleMarks(c: Context, time: Word64, sample: seq<Text>): seq<Mark> {
    var m := Common(c.frames, sample);
    CloseMarks(c.frames, |c.frames| - m, time) + OpenMarks(sample[m..], time)
  }

  function EventMarks(cs: seq<Context>, base: Word64, e: Event): seq<Mark>
    requires cs != []
  {
    match e
    case Ok(_, _, time, Branch(br)) => BranchMarks(cs, Since(base, time), br)
    case Ok(_, _, time, StacktraceSample(sample)) => SampleMarks(Live(cs), Since(base, time), Symbols(sample))
    case DecodeError(_, _, Some(time), _, _) => CloseAllMarks(cs, Since(base, time))
    case _ => []
  }

  function AllMarks(base: Word64, events: seq<Event>): seq<Mark> {
    if events == [] then []
    else
      var n := |events| - 1;
      AllMarks(base, events[..n]) + EventMarks(Meaning(base, events[..n]), base, events[n])
  }

  function LastTime(base: Word64, events: seq<Event>): Word64 {
    if events == [] then 0
    else
      match Stamp(events[|events| - 1])
      case Some(time) => Since(base, time)
      case None => LastTime(base, events[..|events| - 1])
  }

  // ----- Laying the marks out -------------------------------------------------------------------

  /** Where the last run of marks at one instant begins. */
  function RunStart(marks: seq<Mark>): (k: nat)
    requires marks != []
    ensures k < |marks|
  {
    var n := |marks| - 1;
    if n > 0 && marks[n - 1].at == marks[n].at then RunStart(marks[..n]) else n
  }

  function Events(marks: seq<Mark>): (evs: seq<PendingEvent>)
    ensures |evs| == |marks|
  {
    seq(|marks|, i requires 0 <= i < |marks| => marks[i].ev)
  }

  /** What a mark writes at the instant it is laid at. A return from code that was never seen to be
      called shows a frame of its own, open since the context was. */
  function MarkEntries(ev: PendingEvent, at: Word64): seq<Entry> {
    match ev
    case PendingCall(loc, _) => [Entry(Begin, loc.symbol, at)]
    case PendingRet(symbol) => [Entry(Close, symbol, at)]
    case PendingRetFromUntraced(since) => [Entry(Begin, "[unknown]", since), Entry(Close, "[unknown]", at)]
  }

  function CallsBefore(evs: seq<PendingEvent>, n: nat): set<int> {
    set i | 0 <= i < n && i < |evs| && evs[i].PendingCall?
  }

  /** The instant of the event at `i`: after an even share of the time for every call before it. */
  function Instant(evs: seq<PendingEvent>, i: nat, at: Word64, total: nat): Word64
    requires i < |evs| && at + total < TWO_64
  {
    InstantIs(evs, i, at, total);
    at + EvenShares(total, |CallsBefore(evs, |evs|)|, |CallsBefore(evs, i)|)
  }

  /** The first `n` events of a run that has `total` nanoseconds from `at` on. */
  function Placed(evs: seq<PendingEvent>, n: nat, at: Word64, total: nat): seq<Entry>
    requires n <= |evs| && at + total < TWO_64
  {
    if n == 0 then []
    else Placed(evs, n - 1, at, total) + MarkEntries(evs[n - 1], Instant(evs, n - 1, at, total))
  }

  function SpreadTo(evs: seq<PendingEvent>, at: Word64, to: Word64): seq<Entry> {
    Placed(evs, |evs|, at, if to > at then to - at else 0)
  }

  lemma {:induction false} CallsCounted(evs: seq<PendingEvent>, n: nat)
    requires n <= |evs|
    ensures |CallsBefore(evs, n)| == CountCalls(evs[..n])
    decreases n
  {
    if n == 0 {
      assert CallsBefore(evs, 0) == {};
    } else {
      CallsCounted(evs, n - 1);
      CountNext(evs[..n - 1], evs[n - 1]);
      assert evs[..n - 1] + [evs[n - 1]] == evs[..n];
      assert CallsBefore(evs, n) == CallsBefore(evs, n - 1) + (if evs[n - 1].PendingCall? then {n - 1} else {});
    }
  }

  lemma {:induction false} CountNext(evs: seq<PendingEvent>, ev: PendingEvent)
    ensures CountCalls(evs + [ev]) == CountCalls(evs) + (if ev.PendingCall? then 1 else 0)
    decreases |evs|
  {
    if evs != [] {
      assert (evs + [ev])[1..] == evs[1..] + [ev];
      CountNext(evs[1..], ev);
    }
  }

  lemma {:induction false} InstantIs(evs: seq<PendingEvent>, i: nat, at: Word64, total: nat)
    requires i < |evs| && at + total < TWO_64
    ensures |CallsBefore(evs, i)| <= |CallsBefore(evs, |evs|)|
    ensures at + EvenShares(total, |CallsBefore(evs, |evs|)|, |CallsBefore(evs, i)|) == Times(evs, at, total)[i]
    ensures at <= Times(evs, at, total)[i] <= at + total
  {
    hide EvenShares;
    assert evs[..|evs|] == evs;
    CallsCounted(evs, |evs|);
    CallsCounted(evs, i);
    TimesAreEven(evs, at, total, i);
    SpreadIsAssembled(evs, at, total);
  }

  lemma {:induction false} AssembleNext(evs: seq<PendingEvent>, times: seq<nat>, ev: PendingEvent, time: Word64)
    requires |times| == |evs| && forall i :: 0 <= i < |times| ==> times[i] < TWO_64
    ensures Assemble(evs + [ev], times + [time]) == Assemble(evs, times) + MarkEntries(ev, time)
    decreases |evs|
  {
    if evs == [] {
      assert [ev][1..] == [] && [time][1..] == [];
    } else {
      assert (evs + [ev])[1..] == evs[1..] + [ev] && (times + [time])[1..] == times[1..] + [time];
      AssembleNext(evs[1..], times[1..], ev, time);
    }
  }

  lemma {:induction false} PlacedIs(evs: seq<PendingEvent>, n: nat, at: Word64, total: nat)
    requires n <= |evs| && at + total < TWO_64
    requires forall i :: 0 <= i < |evs| ==> Times(evs, at, total)[i] < TWO_64
    ensures Placed(evs, n, at, total) == Assemble(evs[..n], Times(evs, at, total)[..n])
    decreases n
  {
    hide Times, EvenShares;
    if n > 0 {
      var times := Times(evs, at, total);
      PlacedIs(evs, n - 1, at, total);
      InstantIs(evs, n - 1, at, total);
      AssembleNext(evs[..n - 1], times[..n - 1], evs[n - 1], times[n - 1]);
      assert evs[..n - 1] + [evs[n - 1]] == evs[..n] && times[..n - 1] + [times[n - 1]] == times[..n];
    }
  }

  /** The machine's loop over a batch places its events where they belong. */
  lemma {:induction false} SpreadIsPlaced(evs: seq<PendingEvent>, at: Word64, to: Word64)
    ensures SpreadTo(evs, at, to) == Spread(evs, at, if to > at then to - at else 0)
  {
    hide Spread, Placed, Assemble;
    var total := if to > at then to - at else 0;
    SpreadIsAssembled(evs, at, total);
    PlacedIs(evs, |evs|, at, total);
    assert evs[..|evs|] == evs && Times(evs, at, total)[..|evs|] == Times(evs, at, total);
  }

  /** Every run is spread up to the instant of the next one, the last one up to `to`. */
  function Laid(marks: seq<Mark>, to: Word64): seq<Entry> {
    if marks == [] then []
    else
      var k := RunStart(marks);
      Laid(marks[..k], marks[k].at) + SpreadTo(Events(marks[k..]), marks[k].at, to)
  }

  /** All the events' marks, and the closing of whatever they left open at the last event's time. */
  function LaidLog(base: Word64, events: seq<Event>): seq<Entry> {
    var last := LastTime(base, events);
    Laid(AllMarks(base, events) + CloseAllMarks(Meaning(base, events), last), last)
  }

  // ----- The thread machine keeps up ------------------------------------------------------------

  /** The event by name alone. */
  function Plain(ev: PendingEvent): PendingEvent {
    match ev
    case PendingCall(loc, _) => PendingCall(Location(0, loc.symbol, 0), false)
    case _ => ev
  }

  function Plains(evs: seq<PendingEvent>): (r: seq<PendingEvent>)
    ensures |r| == |evs|
  {
    seq(|evs|, i requires 0 <= i < |evs| => Plain(evs[i]))
  }

  lemma {:induction false} PlainCalls(evs: seq<PendingEvent>)
    ensures CountCalls(Plains(evs)) == CountCalls(evs)
  {
    if evs != [] {
      assert Plains(evs)[1..] == Plains(evs[1..]);
      PlainCalls(evs[1..]);
    }
  }

  lemma {:induction false} PlainSpread(evs: seq<PendingEvent>, at: Word64, left: nat)
    requires at + left < TWO_64
    ensures Spread(Plains(evs), at, left) == Spread(evs, at, left)
    decreases |evs|
  {
    if evs != [] {
      PlainCalls(evs);
      assert Plains(evs)[1..] == Plains(evs[1..]);
      var share := Share(evs, left);
      PlainSpread(evs[1..], at + share, left - share);
    }
  }

  /** All runs but the last are written, the last one is the pending batch. */
  predicate Holds(t: ThreadState, marks: seq<Mark>) {
    if marks == [] then t.pending == [] && t.written == []
    else
      var k := RunStart(marks);
      t.pendingTime == marks[k].at && Plains(t.pending) == Events(marks[k..]) &&
        t.written == Laid(marks[..k], marks[k].at)
  }

  lemma {:induction false} RunAt(marks: seq<Mark>)
    requires marks != []
    ensures marks[RunStart(marks)].at == marks[|marks| - 1].at
    decreases |marks|
  {
    var n := |marks| - 1;
    if n > 0 && marks[n - 1].at == marks[n].at {
      RunAt(marks[..n]);
    }
  }

  lemma {:induction false} PlainsNext(evs: seq<PendingEvent>, ev: PendingEvent)
    ensures Plains(evs + [ev]) == Plains(evs) + [Plain(ev)]
  {
  }

  lemma {:induction false} CutNext(marks: seq<Mark>, mark: Mark, k: nat)
    requires k <= |marks|
    ensures (marks + [mark])[..k] == marks[..k] && (marks + [mark])[k..] == marks[k..] + [mark]
  {
  }

  lemma {:induction false} EventsNext(marks: seq<Mark>, mark: Mark)
    ensures Events(marks + [mark]) == Events(marks) + [mark.ev]
  {
  }

  lemma {:induction false} AddHolds(t: ThreadState, marks: seq<Mark>, time: Word64, ev: PendingEvent)
    requires Holds(t, marks)
    ensures Holds(AddEvent(t, time, ev), marks + [Mark(time, Plain(ev))])
  {
    hide Spread, SpreadTo;
    var all := marks + [Mark(time, Plain(ev))];
    assert all[..|marks|] == marks;
    var r := AddEvent(t, time, ev);
    if marks == [] {
      assert Plains(r.pending) == Events(all[0..]);
    } else {
      RunAt(marks);
      var k := RunStart(marks);
      assert t.pending != [] by {
        assert |Plains(t.pending)| == |Events(marks[k..])|;
      }
      if time == t.pendingTime {
        assert RunStart(all) == k;
        CutNext(marks, Mark(time, Plain(ev)), k);
        PlainsNext(t.pending, ev);
        EventsNext(marks[k..], Mark(time, Plain(ev)));
      } else {
        assert RunStart(all) == |marks|;
        PlainSpread(t.pending, t.pendingTime, Elapsed(t, time));
        SpreadIsPlaced(Plains(t.pending), t.pendingTime, time);
        assert r.written == Laid(marks, time);
        assert Plains(r.pending) == Events(all[|marks|..]);
      }
    }
  }

  lemma {:induction false} PushHolds(t: ThreadState, marks: seq<Mark>, time: Word64, loc: Location, fromUntraced: bool)
    requires Holds(t, marks)
    ensures Holds(PushFrame(t, time, loc, fromUntraced), marks + [Opens(loc.symbol, time)])
  {
    hide Laid, AddEvent;
    AddHolds(t, marks, time, PendingCall(loc, fromUntraced));
  }

  function LiveOf(t: ThreadState): Context {
    Seen(t.callstack)
  }

  lemma {:induction false} PopHolds(t: ThreadState, marks: seq<Mark>, time: Word64)
    requires Holds(t, marks)
    ensures Holds(PopFrame(t, time), marks + ReturnMarks(LiveOf(t), time))
  {
    hide Laid, AddEvent;
    var stack := t.callstack.stack;
    AddHolds(t, marks, time, if stack != [] then PendingRet(stack[|stack| - 1].symbol)
                             else PendingRetFromUntraced(t.callstack.createTime));
  }

  lemma {:induction false} CheckHolds(t: ThreadState, marks: seq<Mark>, time: Word64, loc: Location)
    requires Holds(t, marks)
    ensures Holds(CheckCurrentSymbol(t, time, loc), marks + CheckMarks(LiveOf(t), time, loc.symbol))
  {
    hide Holds, PushFrame, PopFrame;
    if t.callstack.stack == [] {
      PushHolds(t, marks, t.callstack.createTime, loc, true);
    } else if TopIs(t, loc.symbol) {
      assert marks + [] == marks;
    } else {
      var closed := ReturnMarks(LiveOf(t), time);
      PopHolds(t, marks, time);
      PushHolds(PopFrame(t, time), marks + closed, time, loc, false);
      Join(marks, closed, [Opens(loc.symbol, time)]);
      assert closed + [Opens(loc.symbol, time)] == CheckMarks(LiveOf(t), time, loc.symbol);
    }
  }

  lemma {:induction false} PopsHold(t: ThreadState, marks: seq<Mark>, time: Word64, n: nat)
    requires Holds(t, marks) && n <= |t.callstack.stack|
    ensures Holds(PopFrames(t, time, n), marks + CloseMarks(Symbols(t.callstack.stack), n, time))
    decreases n
  {
    hide Holds, PopFrame;
    if n == 0 {
      assert marks + [] == marks;
    } else {
      var frames := Symbols(t.callstack.stack);
      PopHolds(t, marks, time);
      PopSeen(t, time);
      var closed := [Closes(frames[|frames| - 1], time)];
      PopsHold(PopFrame(t, time), marks + closed, time, n - 1);
      Join(marks, closed, CloseMarks(Under(frames), n - 1, time));
    }
  }

  lemma {:induction false} PushesHold(t: ThreadState, marks: seq<Mark>, time: Word64, locs: seq<Location>)
    requires Holds(t, marks)
    ensures Holds(PushFrames(t, time, locs), marks + OpenMarks(Symbols(locs), time))
    decreases |locs|
  {
    hide Holds, PushFrame;
    if locs == [] {
      assert marks + [] == marks;
    } else {
      var n := |locs| - 1;
      assert Under(Symbols(locs)) == Symbols(locs[..n]);
      PushesHold(t, marks, time, locs[..n]);
      var opened' := OpenMarks(Symbols(locs[..n]), time);
      PushHolds(PushFrames(t, time, locs[..n]), marks + opened', time, locs[n], false);
      Join(marks, opened', [Opens(locs[n].symbol, time)]);
    }
  }

  lemma {:induction false} ClearAllHolds(t: ThreadState, marks: seq<Mark>, time: Word64)
    requires Holds(t, marks)
    ensures Holds(ClearAll(t, time), marks + CloseAllMarks(ContextsOf(t), time))
    decreases |t.inactive|
  {
    hide Holds, PopFrames, CloseMarks;
    var n := |t.callstack.stack|;
    var closed := CloseMarks(Symbols(t.callstack.stack), n, time);
    PopFramesKeep(t, time, n);
    PopsHold(t, marks, time, n);
    var c := ClearCallstack(t, time);
    var cs := ContextsOf(t);
    assert cs[..|cs| - 1] == AllSeen(t.inactive);
    if c.inactive == [] {
      assert closed + [] == closed;
    } else {
      ResumeSeen(c);
      assert ContextsOf(Resume(c)) == cs[..|cs| - 1];
      HoldsWhatever(c, Resume(c), marks + closed);
      ClearAllHolds(Resume(c), marks + closed, time);
      Join(marks, closed, CloseAllMarks(cs[..|cs| - 1], time));
    }
  }

  /** The batch and the log are all that counts. */
  lemma {:induction false} HoldsWhatever(t: ThreadState, r: ThreadState, marks: seq<Mark>)
    requires Holds(t, marks) && r.pending == t.pending && r.pendingTime == t.pendingTime && r.written == t.written
    ensures Holds(r, marks)
  {
  }

  lemma {:induction false} LeaveHolds(t: ThreadState, marks: seq<Mark>, time: Word64, dst: Location)
    requires Holds(t, marks)
    ensures Holds(LeaveContext(t, time, dst), marks + LeaveMarks(ContextsOf(t), time, dst.symbol))
  {
    hide Holds, PopFrames, CloseMarks, CheckCurrentSymbol, CheckMarks;
    var n := |t.callstack.stack|;
    var closed := CloseMarks(Symbols(t.callstack.stack), n, time);
    PopFramesKeep(t, time, n);
    PopsHold(t, marks, time, n);
    var c := ClearCallstack(t, time);
    if c.inactive == [] {
      HoldsWhatever(c, LeaveContext(t, time, dst), marks + closed);
      assert closed + [] == closed;
    } else {
      var r := Resume(c);
      HoldsWhatever(c, r, marks + closed);
      CheckHolds(r, marks + closed, time, dst);
      var cs := ContextsOf(t);
      assert LiveOf(r) == cs[|cs| - 2];
      Join(marks, closed, CheckMarks(LiveOf(r), time, dst.symbol));
    }
  }

  lemma {:induction false} TakeHolds(t: ThreadState, marks: seq<Mark>, time: Word64, kind: BranchKind,
      src: Location, dst: Location)
    requires Holds(t, marks)
    ensures Holds(TakeBranch(t, time, kind, src, dst),
                  marks + TakenMarks(ContextsOf(t), time, kind, src.symbol, dst.symbol))
  {
    hide Holds, PushFrame, PopFrame, CheckCurrentSymbol, LeaveContext, CheckMarks, ReturnMarks, LeaveMarks;
    var c := LiveOf(t);
    match kind {
      case Call =>
        CheckHolds(t, marks, time, src);
        PushHolds(CheckCurrentSymbol(t, time, src), marks + CheckMarks(c, time, src.symbol), time, dst, false);
        Join(marks, CheckMarks(c, time, src.symbol), [Opens(dst.symbol, time)]);
      case Return =>
        PopHolds(t, marks, time);
        PopSeen(t, time);
        var p := PopFrame(t, time);
        CheckHolds(p, marks + ReturnMarks(c, time), time, dst);
        assert LiveOf(p) == c.(frames := Under(c.frames));
        Join(marks, ReturnMarks(c, time), CheckMarks(LiveOf(p), time, dst.symbol));
      case Syscall => EnterHolds(t, marks, time, dst);
      case HardwareInterrupt => EnterHolds(t, marks, time, dst);
      case Sysret => LeaveHolds(t, marks, time, dst);
      case Iret => LeaveHolds(t, marks, time, dst);
      case _ => CheckHolds(t, marks, time, dst);
    }
  }

  lemma {:induction false} EnterHolds(t: ThreadState, marks: seq<Mark>, time: Word64, dst: Location)
    requires Holds(t, marks)
    ensures Holds(PushFrame(Suspend(t, time), time, dst), marks + [Opens(dst.symbol, time)])
  {
    hide Holds, PushFrame;
    HoldsWhatever(t, Suspend(t, time), marks);
    PushHolds(Suspend(t, time), marks, time, dst, false);
  }

  lemma {:induction false} StartHolds(t: ThreadState, marks: seq<Mark>, time: Word64, dst: Location)
    requires Holds(t, marks)
    ensures Holds(StartTrace(t, time, dst), marks + StartMarks(LiveOf(t), time, dst.symbol))
  {
    hide Holds, PopFrame, CheckCurrentSymbol, CheckMarks;
    if TopIs(t, UNTRACED) {
      PopHolds(t, marks, time);
      PopSeen(t, time);
      var p := PopFrame(t, time);
      var closed := [Closes(UNTRACED, time)];
      CheckHolds(p, marks + closed, time, dst);
      Join(marks, closed, CheckMarks(LiveOf(p), time, dst.symbol));
    } else {
      CheckHolds(t, marks, time, dst);
    }
  }

  lemma {:induction false} BranchHolds(t: ThreadState, marks: seq<Mark>, time: Word64, br: BranchData)
    requires Holds(t, marks)
    ensures Holds(ProcessBranch(t, time, br), marks + BranchMarks(ContextsOf(t), time, br))
  {
    hide Holds, PushFrame, StartTrace, TakeBranch, StartMarks, TakenMarks, Resumed;
    if br.traceState == End {
      PushHolds(t, marks, time, Location(0, UNTRACED, 0), false);
    } else {
      var s, first := t, [];
      if br.traceState == Start {
        s, first := StartTrace(t, time, br.dst), StartMarks(LiveOf(t), time, br.dst.symbol);
        StartHolds(t, marks, time, br.dst);
        StartSeen(t, time, br.dst);
        BecomesLive(t, s, Resumed(LiveOf(t).frames, br.dst.symbol));
      } else {
        assert marks + first == marks;
      }
      if br.kind.None? {
        assert first + [] == first;
      } else {
        TakeHolds(s, marks + first, time, br.kind.value, br.src, br.dst);
        Join(marks, first, TakenMarks(ContextsOf(s), time, br.kind.value, br.src.symbol, br.dst.symbol));
      }
    }
  }

  lemma {:induction false} SampleHolds(t: ThreadState, marks: seq<Mark>, time: Word64, sample: seq<Location>)
    requires Holds(t, marks)
    ensures Holds(ProcessSample(t, time, sample), marks + SampleMarks(LiveOf(t), time, Symbols(sample)))
  {
    hide Holds, PopFrames, PushFrames, CloseMarks, OpenMarks, Common;
    var stack := t.callstack.stack;
    var m := MatchCount(stack, sample);
    MatchIsCommon(stack, sample);
    var closed := CloseMarks(Symbols(stack), |stack| - m, time);
    PopsHold(t, marks, time, |stack| - m);
    PushesHold(PopFrames(t, time, |stack| - m), marks + closed, time, sample[m..]);
    assert Symbols(sample[m..]) == Symbols(sample)[m..];
    Join(marks, closed, OpenMarks(Symbols(sample[m..]), time));
  }

  lemma {:induction false} StepHolds(t: ThreadState, marks: seq<Mark>, base: Word64, e: Event)
    requires Holds(t, marks)
    ensures Holds(Step(t, base, e), marks + EventMarks(ContextsOf(t), base, e))
  {
    hide Holds, ProcessBranch, ProcessSample, ClearAll, BranchMarks, SampleMarks, CloseAllMarks, MapTime, Since;
    if e.Relevant() {
      var time := MapTime(base, e.Time());
      SinceIs(base, e.Time());
      var l := t.(lastEventTime := time);
      HoldsWhatever(t, l, marks);
      match e
      case Ok(_, _, _, Branch(br)) => BranchHolds(l, marks, time, br);
      case Ok(_, _, _, StacktraceSample(sample)) => SampleHolds(l, marks, time, sample);
      case DecodeError(_, _, _, _, _) => ClearAllHolds(l, marks, time);
    } else {
      assert marks + [] == marks;
    }
  }

  lemma {:induction false} RunHolds(base: Word64, events: seq<Event>)
    ensures Holds(RunThread(FRESH_THREAD, base, events), AllMarks(base, events))
    decreases |events|
  {
    hide Step, EventMarks, Meaning;
    if events != [] {
      var n := |events| - 1;
      RunHolds(base, events[..n]);
      StacksAreMeaning(base, events[..n]);
      StepHolds(RunThread(FRESH_THREAD, base, events[..n]), AllMarks(base, events[..n]), base, events[n]);
    }
  }

  // ----- Finishing --------------------------------------------------------------------------------

  lemma {:induction false} SpreadNoTime(a: seq<PendingEvent>, b: seq<PendingEvent>, at: Word64)
    ensures Spread(a + b, at, 0) == Spread(a, at, 0) + Spread(b, at, 0)
    decreases |a|
  {
    if a == [] {
      assert a + b == b;
    } else {
      assert (a + b)[1..] == a[1..] + b;
      SpreadNoTime(a[1..], b, at);
      Join(EntriesOf(a[0], at), Spread(a[1..], at, 0), Spread(b, at, 0));
    }
  }

  /** Two threads that differ only in how much of the log they hold back at `now`. */
  predicate Alike(t: ThreadState, f: ThreadState, now: Word64) {
    t.callstack == f.callstack && t.inactive == f.inactive &&
    (f.pending != [] ==> f.pendingTime == now) &&
    Flush(t, now).written == Flush(f, now).written
  }

  lemma {:induction false} AddAlike(t: ThreadState, f: ThreadState, now: Word64, ev: PendingEvent)
    requires Alike(t, f, now)
    ensures Alike(AddEvent(t, now, ev), AddEvent(f, now, ev), now)
  {
    AddNow(t, now, ev);
    AddNow(f, now, ev);
  }

  lemma {:induction false} AddNow(t: ThreadState, now: Word64, ev: PendingEvent)
    ensures Flush(AddEvent(t, now, ev), now).written == Flush(t, now).written + EntriesOf(ev, now)
  {
    assert Spread([ev], now, 0) == EntriesOf(ev, now) by {
      assert [ev][1..] == [] && EntriesOf(ev, now) + [] == EntriesOf(ev, now);
    }
    assert [] + [ev] == [ev];
    SpreadNoTime(t.pending, [ev], now);
    if t.pending != [] && now == t.pendingTime {
      Join(t.written, Spread(t.pending, now, 0), EntriesOf(ev, now));
    }
  }

  lemma {:induction false} PopsAlike(t: ThreadState, f: ThreadState, now: Word64, n: nat)
    requires Alike(t, f, now)
    ensures Alike(PopFrames(t, now, n), PopFrames(f, now, n), now)
    decreases n
  {
    hide Flush;
    if n > 0 {
      var stack := t.callstack.stack;
      var ev :=
        if stack != [] then PendingRet(stack[|stack| - 1].symbol)
        else PendingRetFromUntraced(t.callstack.createTime);
      AddAlike(t, f, now, ev);
      AlikeWhatever(AddEvent(t, now, ev), PopFrame(t, now), now);
      AlikeWhatever(AddEvent(f, now, ev), PopFrame(f, now), now);
      PopsAlike(PopFrame(t, now), PopFrame(f, now), now, n - 1);
    }
  }

  lemma {:induction false} AlikeWhatever(t: ThreadState, r: ThreadState, now: Word64)
    requires r.pending == t.pending && r.pendingTime == t.pendingTime && r.written == t.written
    ensures Flush(r, now).written == Flush(t, now).written
  {
  }

  lemma {:induction false} ClearAllAlike(t: ThreadState, f: ThreadState, now: Word64)
    requires Alike(t, f, now)
    ensures Flush(ClearAll(t, now), now).written == Flush(ClearAll(f, now), now).written
    decreases |t.inactive|
  {
    hide Flush, PopFrames;
    var n := |t.callstack.stack|;
    PopFramesKeep(t, now, n);
    PopFramesKeep(f, now, n);
    PopsAlike(t, f, now, n);
    var c, d := ClearCallstack(t, now), ClearCallstack(f, now);
    if c.inactive != [] {
      AlikeWhatever(c, Resume(c), now);
      AlikeWhatever(d, Resume(d), now);
      ClearAllAlike(Resume(c), Resume(d), now);
    }
  }

  lemma {:induction false} LastTimeIs(base: Word64, events: seq<Event>)
    ensures RunThread(FRESH_THREAD, base, events).lastEventTime == LastTime(base, events)
    decreases |events|
  {
    hide Step;
    if events != [] {
      var n := |events| - 1;
      LastTimeIs(base, events[..n]);
      if events[n].Relevant() {
        SinceIs(base, events[n].Time());
        SpanTiming.StepLast(RunThread(FRESH_THREAD, base, events[..n]), base, events[n]);
      } else {
        StepNothing(RunThread(FRESH_THREAD, base, events[..n]), base, events[n]);
      }
    }
  }

  lemma {:induction false} StepNothing(t: ThreadState, base: Word64, e: Event)
    requires !e.Relevant()
    ensures Step(t, base, e) == t
  {
  }

  // ----- Main result ------------------------------------------------------------------------

  /** The log written batch by batch is the log laid out with all the events at hand. */
  lemma {:induction false} LogIsLaidOut(base: Word64, events: seq<Event>)
    ensures SpanTiming.FinishedLog(base, events) == LaidLog(base, events)
  {
    hide ClearAll, RunThread, Laid, Holds, Spread;
    var t := RunThread(FRESH_THREAD, base, events);
    var last := LastTime(base, events);
    LastTimeIs(base, events);
    RunHolds(base, events);
    StacksAreMeaning(base, events);
    ClearAllHolds(t, AllMarks(base, events), last);
    HeldIsLaid(ClearAll(t, last), AllMarks(base, events) + CloseAllMarks(Meaning(base, events), last), last);
    assert Alike(t, Flush(t, last), last);
    ClearAllAlike(t, Flush(t, last), last);
  }

  lemma {:induction false} HeldIsLaid(t: ThreadState, marks: seq<Mark>, to: Word64)
    requires Holds(t, marks)
    ensures Flush(t, to).written == Laid(marks, to)
  {
    hide Spread, SpreadTo;
    if marks != [] {
      PlainSpread(t.pending, t.pendingTime, Elapsed(t, to));
      SpreadIsPlaced(Plains(t.pending), t.pendingTime, to);
      assert |Plains(t.pending)| == |Events(marks[RunStart(marks)..])|;
    }
  }
}
