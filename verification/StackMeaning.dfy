/** What the events mean for a thread's stacks, without batches, times of frames or a log: a list of
    contexts, each with its frames by name and the time it was opened. The thread machine's stacks are
    exactly these, and its log and pending batch replay to them. */
module StackMeaning {
  import opened Texts
  import opened PerfEvent
  import opened ThreadMachine
  import opened StackDiscipline
  import opened Samples

  datatype Context = Context(since: Word64, frames: seq<Text>)

  /** The time of an event that bears on the stacks: a branch, a sample or a decode error with a time. */
  function Stamp(e: Event): Option<Word64> {
    match e
    case Ok(_, _, time, Branch(_)) => Some(time)
    case Ok(_, _, time, StacktraceSample(_)) => Some(time)
    case DecodeError(_, _, time, _, _) => time
    case _ => None
  }

  /** The nanoseconds since the base; an earlier time counts on from the far end of the 64-bit clock. */
  function Since(base: Word64, time: Word64): Word64 {
    if time < base then time + TWO_64 - base else time - base
  }

  lemma {:induction false} SinceIs(base: Word64, time: Word64)
    ensures MapTime(base, time) == Since(base, time)
  {
  }

  function Under(frames: seq<Text>): seq<Text> {
    if frames == [] then [] else frames[..|frames| - 1]
  }

  /** The same frames with `symbol` running at the top instead. */
  function Retop(frames: seq<Text>, symbol: Text): seq<Text> {
    Under(frames) + [symbol]
  }

  function Resumed(frames: seq<Text>, dst: Text): seq<Text> {
    Retop(if frames != [] && frames[|frames| - 1] == "[untraced]" then Under(frames) else frames, dst)
  }

  /** The current context is the last one; there always is one. */
  function Live(cs: seq<Context>): Context
    requires cs != []
  {
    cs[|cs| - 1]
  }

  function SetLive(cs: seq<Context>, frames: seq<Text>): (r: seq<Context>)
    requires cs != []
    ensures r != []
  {
    cs[..|cs| - 1] + [Live(cs).(frames := frames)]
  }

  function Taken(cs: seq<Context>, time: Word64, kind: BranchKind, src: Text, dst: Text): (r: seq<Context>)
    requires cs != []
    ensures r != []
  {
    var frames := Live(cs).frames;
    match kind
    case Call => SetLive(cs, Retop(frames, src) + [dst])
    case Return => SetLive(cs, Retop(Under(frames), dst))
    case Syscall => cs + [Context(time, [dst])]
    case HardwareInterrupt => cs + [Context(time, [dst])]
    case Sysret => Left(cs, time, dst)
    case Iret => Left(cs, time, dst)
    case _ => SetLive(cs, Retop(frames, dst))
  }

  function Left(cs: seq<Context>, time: Word64, dst: Text): (r: seq<Context>)
    requires cs != []
    ensures r != []
  {
    if |cs| == 1 then [Context(time, [])]
    else
      var outer := cs[..|cs| - 1];
      SetLive(outer, Retop(Live(outer).frames, dst))
  }

  function Branched(cs: seq<Context>, time: Word64, br: BranchData): (r: seq<Context>)
    requires cs != []
    ensures r != []
  {
    var frames := Live(cs).frames;
    if br.traceState == End then SetLive(cs, frames + ["[untraced]"])
    else
      var started := if br.traceState == Start then SetLive(cs, Resumed(frames, br.dst.symbol)) else cs;
      if br.kind.None? then started else Taken(started, time, br.kind.value, br.src.symbol, br.dst.symbol)
  }

  function Meaning(base: Word64, events: seq<Event>): (cs: seq<Context>)
    ensures cs != []
  {
    if events == [] then [Context(0, [])]
    else
      var cs := Meaning(base, events[..|events| - 1]);
      match events[|events| - 1]
      case Ok(_, _, time, Branch(br)) => Branched(cs, Since(base, time), br)
      case Ok(_, _, _, StacktraceSample(sample)) => SetLive(cs, Symbols(sample))
      case DecodeError(_, _, Some(_), _, _) => [cs[0].(frames := [])]
      case _ => cs
  }

  // ----- The thread machine's contexts ----------------------------------------------------------

  function Seen(c: Callstack): Context {
    Context(c.createTime, Symbols(c.stack))
  }

  function AllSeen(inactive: seq<Callstack>): (cs: seq<Context>)
    ensures |cs| == |inactive|
  {
    seq(|inactive|, i requires 0 <= i < |inactive| => Seen(inactive[i]))
  }

  function ContextsOf(t: ThreadState): (cs: seq<Context>)
    ensures cs != []
  {
    AllSeen(t.inactive) + [Seen(t.callstack)]
  }

  /** Only the live frames change, to `frames`. */
  predicate Becomes(t: ThreadState, r: ThreadState, frames: seq<Text>) {
    r.inactive == t.inactive && r.callstack.createTime == t.callstack.createTime && Symbols(r.callstack.stack) == frames
  }

  lemma {:induction false} BecomesLive(t: ThreadState, r: ThreadState, frames: seq<Text>)
    requires Becomes(t, r, frames)
    ensures ContextsOf(r) == SetLive(ContextsOf(t), frames)
    ensures Live(ContextsOf(t)).frames == Symbols(t.callstack.stack)
  {
  }

  lemma {:induction false} PushSeen(t: ThreadState, time: Word64, loc: Location, fromUntraced: bool)
    ensures Becomes(t, PushFrame(t, time, loc, fromUntraced), Symbols(t.callstack.stack) + [loc.symbol])
  {
  }

  lemma {:induction false} PopSeen(t: ThreadState, time: Word64)
    ensures Becomes(t, PopFrame(t, time), Under(Symbols(t.callstack.stack)))
  {
  }

  lemma {:induction false} CheckSeen(t: ThreadState, time: Word64, loc: Location)
    ensures Becomes(t, CheckCurrentSymbol(t, time, loc), Retop(Symbols(t.callstack.stack), loc.symbol))
  {
    hide PushFrame, PopFrame;
    var frames := Symbols(t.callstack.stack);
    if frames == [] {
      PushSeen(t, t.callstack.createTime, loc, true);
      assert Retop(frames, loc.symbol) == frames + [loc.symbol];
    } else if TopIs(t, loc.symbol) {
      assert Retop(frames, loc.symbol) == frames;
    } else {
      PopSeen(t, time);
      PushSeen(PopFrame(t, time), time, loc, false);
    }
  }

  lemma {:induction false} ResumeSeen(t: ThreadState)
    requires t.inactive != []
    ensures ContextsOf(Resume(t)) == ContextsOf(t)[..|t.inactive|]
  {
  }

  lemma {:induction false} LeaveSeen(t: ThreadState, time: Word64, dst: Location)
    ensures ContextsOf(LeaveContext(t, time, dst)) == Left(ContextsOf(t), time, dst.symbol)
  {
    hide CheckCurrentSymbol, PopFrames;
    PopFramesKeep(t, time, |t.callstack.stack|);
    var c := ClearCallstack(t, time);
    if c.inactive != [] {
      ResumeSeen(c);
      var r := Resume(c);
      CheckSeen(r, time, dst);
      BecomesLive(r, CheckCurrentSymbol(r, time, dst), Retop(Symbols(r.callstack.stack), dst.symbol));
      assert ContextsOf(c)[..|t.inactive|] == ContextsOf(t)[..|t.inactive|];
    }
  }

  lemma {:induction false} TakeSeen(t: ThreadState, time: Word64, kind: BranchKind, src: Location, dst: Location)
    ensures ContextsOf(TakeBranch(t, time, kind, src, dst)) == Taken(ContextsOf(t), time, kind, src.symbol, dst.symbol)
  {
    hide CheckCurrentSymbol, LeaveContext, PushFrame, PopFrame, Left;
    var r := TakeBranch(t, time, kind, src, dst);
    var frames := Symbols(t.callstack.stack);
    match kind {
      case Call =>
        CheckSeen(t, time, src);
        PushSeen(CheckCurrentSymbol(t, time, src), time, dst, false);
        BecomesLive(t, r, Retop(frames, src.symbol) + [dst.symbol]);
      case Return =>
        PopSeen(t, time);
        CheckSeen(PopFrame(t, time), time, dst);
        BecomesLive(t, r, Retop(Under(frames), dst.symbol));
      case Syscall => EnterSeen(t, time, dst);
      case HardwareInterrupt => EnterSeen(t, time, dst);
      case Sysret => LeaveSeen(t, time, dst);
      case Iret => LeaveSeen(t, time, dst);
      case _ =>
        CheckSeen(t, time, dst);
        BecomesLive(t, r, Retop(frames, dst.symbol));
    }
  }

  lemma {:induction false} EnterSeen(t: ThreadState, time: Word64, dst: Location)
    ensures ContextsOf(PushFrame(Suspend(t, time), time, dst)) == ContextsOf(t) + [Context(time, [dst.symbol])]
  {
    hide PushFrame;
    var s := Suspend(t, time);
    PushSeen(s, time, dst, false);
    assert Symbols([]) + [dst.symbol] == [dst.symbol];
    assert AllSeen(s.inactive) == AllSeen(t.inactive) + [Seen(t.callstack)];
  }

  lemma {:induction false} StartSeen(t: ThreadState, time: Word64, dst: Location)
    ensures Becomes(t, StartTrace(t, time, dst), Resumed(Symbols(t.callstack.stack), dst.symbol))
  {
    hide PopFrame, CheckCurrentSymbol;
    PopSeen(t, time);
    CheckSeen(if TopIs(t, UNTRACED) then PopFrame(t, time) else t, time, dst);
  }

  lemma {:induction false} BranchSeen(t: ThreadState, time: Word64, br: BranchData)
    ensures ContextsOf(ProcessBranch(t, time, br)) == Branched(ContextsOf(t), time, br)
  {
    hide TakeBranch, StartTrace, PushFrame, Taken, Resumed;
    var frames := Symbols(t.callstack.stack);
    BecomesLive(t, t, frames);
    if br.traceState == End {
      PushSeen(t, time, Location(0, UNTRACED, 0), false);
      BecomesLive(t, ProcessBranch(t, time, br), frames + [UNTRACED]);
    } else {
      var s := t;
      if br.traceState == Start {
        s := StartTrace(t, time, br.dst);
        StartSeen(t, time, br.dst);
        BecomesLive(t, s, Resumed(frames, br.dst.symbol));
      }
      if br.kind.Some? {
        TakeSeen(s, time, br.kind.value, br.src, br.dst);
      }
    }
  }

  lemma {:induction false} SampleSeen(t: ThreadState, time: Word64, sample: seq<Location>)
    ensures Becomes(t, ProcessSample(t, time, sample), Symbols(sample))
  {
    hide ProcessSample;
    var ops := SampleReconciled(t, time, sample);
  }

  lemma {:induction false} ClearAllSeen(t: ThreadState, time: Word64)
    ensures ContextsOf(ClearAll(t, time)) == [ContextsOf(t)[0].(frames := [])]
    decreases |t.inactive|
  {
    hide PopFrames;
    PopFramesKeep(t, time, |t.callstack.stack|);
    var c := ClearCallstack(t, time);
    if c.inactive != [] {
      ResumeSeen(c);
      ClearAllSeen(Resume(c), time);
      assert ContextsOf(Resume(c))[0] == ContextsOf(c)[0];
    }
  }

  lemma {:induction false} StepSeen(t: ThreadState, base: Word64, events: seq<Event>)
    requires events != [] && ContextsOf(t) == Meaning(base, events[..|events| - 1])
    ensures ContextsOf(Step(t, base, events[|events| - 1])) == Meaning(base, events)
  {
    hide ProcessBranch, ProcessSample, ClearAll, Branched, SetLive, MapTime, Since;
    var e := events[|events| - 1];
    if e.Relevant() {
      var time := MapTime(base, e.Time());
      SinceIs(base, e.Time());
      var l := t.(lastEventTime := time);
      assert ContextsOf(l) == ContextsOf(t);
      match e
      case Ok(_, _, _, Branch(br)) => BranchSeen(l, time, br);
      case Ok(_, _, _, StacktraceSample(sample)) =>
        SampleSeen(l, time, sample);
        BecomesLive(l, ProcessSample(l, time, sample), Symbols(sample));
      case DecodeError(_, _, _, _, _) => ClearAllSeen(l, time);
    }
  }

  function Frames(cs: seq<Context>): seq<Text> {
    if cs == [] then [] else Frames(cs[..|cs| - 1]) + cs[|cs| - 1].frames
  }

  lemma {:induction false} FramesSeen(contexts: seq<Callstack>)
    ensures Frames(AllSeen(contexts)) == FlatContexts(contexts)
    decreases |contexts|
  {
    if contexts != [] {
      var n := |contexts| - 1;
      assert AllSeen(contexts)[..n] == AllSeen(contexts[..n]);
      FramesSeen(contexts[..n]);
    }
  }

  // ----- Main results -----------------------------------------------------------------------

  /** After any events a thread's suspended and live stacks, by name, and the times their contexts were
      opened are what the events mean. */
  lemma {:induction false} StacksAreMeaning(base: Word64, events: seq<Event>)
    ensures ContextsOf(RunThread(FRESH_THREAD, base, events)) == Meaning(base, events)
    decreases |events|
  {
    hide Step;
    if events == [] {
      assert ContextsOf(FRESH_THREAD) == [Context(0, [])];
    } else {
      StacksAreMeaning(base, events[..|events| - 1]);
      StepSeen(RunThread(FRESH_THREAD, base, events[..|events| - 1]), base, events);
    }
  }

  /** After any events, replaying what a thread has logged and still holds back gives the frames the
      events mean, outermost context first. */
  lemma {:induction false} LogIsMeaning(base: Word64, events: seq<Event>)
    ensures Replay(Trace(RunThread(FRESH_THREAD, base, events)), []) == Some(Frames(Meaning(base, events)))
  {
    var t := RunThread(FRESH_THREAD, base, events);
    StacksAreMeaning(base, events);
    ReachableConsistent(base, events);
    FramesSeen(t.inactive);
    assert ContextsOf(t)[..|t.inactive|] == AllSeen(t.inactive);
  }
}
