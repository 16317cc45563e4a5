/** The state machine that stack_reconstructor.cpp runs for each thread, as functions on values.
    `written` is the log of duration events the thread has sent to the writer so far. */
module ThreadMachine {
  import opened Texts
  import opened PerfEvent

  datatype Phase = Begin | Close

  /** One duration event of the log. */
  datatype Entry = Entry(phase: Phase, symbol: Text, time: Word64)

  datatype Callstack = Callstack(stack: seq<Location>, createTime: Word64)

  datatype PendingEvent =
    | PendingCall(location: Location, fromUntraced: bool)
    | PendingRet(symbol: Text)
    | PendingRetFromUntraced(resetTime: Word64)

  datatype ThreadState = ThreadState(
    callstack: Callstack,
    inactive: seq<Callstack>,
    pending: seq<PendingEvent>,
    pendingTime: Word64,
    lastEventTime: Word64,
    written: seq<Entry>)

  const UNTRACED: Text := "[untraced]"
  const UNKNOWN: Text := "[unknown]"

  const FRESH_THREAD := ThreadState(Callstack([], 0), [], [], 0, 0, [])

  /** `time_ns - base_time_` on unsigned 64-bit words. */
  function MapTime(base: Word64, time: Word64): Word64 {
    (time - base) % TWO_64
  }

  // ----- Pending batch ---------------------------------------------------------------------

  /** What `write_pending` sends to the writer for one pending event. */
  function EntriesOf(ev: PendingEvent, time: Word64): seq<Entry> {
    match ev
    case PendingCall(loc, _) => [Entry(Begin, loc.symbol, time)]
    case PendingRet(symbol) => [Entry(Close, symbol, time)]
    case PendingRetFromUntraced(reset) => [Entry(Begin, UNKNOWN, reset), Entry(Close, UNKNOWN, time)]
  }

  function CountCalls(evs: seq<PendingEvent>): nat {
    if evs == [] then 0 else (if evs[0].PendingCall? then 1 else 0) + CountCalls(evs[1..])
  }

  /** The nanoseconds the first event of `evs` takes when `left` are left for all of them. */
  function Share(evs: seq<PendingEvent>, left: nat): (share: nat)
    requires evs != []
    ensures share <= left
  {
    if evs[0].PendingCall? then Quotient(left, CountCalls(evs)) else 0
  }

  function Quotient(n: nat, d: nat): (q: nat)
    requires d > 0
    ensures q <= n
    ensures q * d <= n < (q + 1) * d
  {
    assert n == d * (n / d) + n % d;
    DivisorAtMost(n / d, d);
    n / d
  }

  lemma {:induction false} DivisorAtMost(q: nat, d: nat)
    requires d > 0
    ensures q <= d * q
  {
    assert d * q == q + (d - 1) * q;
  }

  /** The entries a flush writes for `evs`, the first one at `at`, sharing out `left` nanoseconds. */
  function Spread(evs: seq<PendingEvent>, at: Word64, left: nat): seq<Entry>
    requires at + left < TWO_64
  {
    if evs == [] then []
    else
      var share := Share(evs, left);
      EntriesOf(evs[0], at) + Spread(evs[1..], at + share, left - share)
  }

  lemma {:induction false} SpreadOne(ev: PendingEvent, at: Word64, left: nat)
    requires at + left < TWO_64
    ensures Spread([ev], at, left) == EntriesOf(ev, at)
  {
    assert [ev][1..] == [];
    assert EntriesOf(ev, at) + [] == EntriesOf(ev, at);
  }

  function Elapsed(t: ThreadState, to: Word64): (e: nat)
    ensures t.pendingTime + e == Max(t.pendingTime, to)
  {
    if to > t.pendingTime then to - t.pendingTime else 0
  }

  function Flush(t: ThreadState, to: Word64): ThreadState {
    if t.pending == [] then t
    else t.(written := t.written + Spread(t.pending, t.pendingTime, Elapsed(t, to)), pendingTime := to, pending := [])
  }

  function AddEvent(t: ThreadState, time: Word64, ev: PendingEvent): ThreadState {
    var f := if time != t.pendingTime && t.pending != [] then Flush(t, time) else t;
    f.(pendingTime := time, pending := f.pending + [ev])
  }

  // ----- Stack operations ------------------------------------------------------------------

  function WithStack(t: ThreadState, stack: seq<Location>): ThreadState {
    t.(callstack := t.callstack.(stack := stack))
  }

  function PushFrame(t: ThreadState, time: Word64, loc: Location, fromUntraced: bool := false): ThreadState {
    WithStack(AddEvent(t, time, PendingCall(loc, fromUntraced)), t.callstack.stack + [loc])
  }

  function PopFrame(t: ThreadState, time: Word64): ThreadState {
    var stack := t.callstack.stack;
    if stack != [] then
      WithStack(AddEvent(t, time, PendingRet(stack[|stack| - 1].symbol)), stack[..|stack| - 1])
    else
      AddEvent(t, time, PendingRetFromUntraced(t.callstack.createTime))
  }

  predicate TopIs(t: ThreadState, symbol: Text) {
    var stack := t.callstack.stack;
    stack != [] && stack[|stack| - 1].symbol == symbol
  }

  function CheckCurrentSymbol(t: ThreadState, time: Word64, loc: Location): ThreadState {
    if t.callstack.stack == [] then PushFrame(t, t.callstack.createTime, loc, true)
    else if TopIs(t, loc.symbol) then t
    else PushFrame(PopFrame(t, time), time, loc)
  }

  /** `n` returns in a row. */
  function PopFrames(t: ThreadState, time: Word64, n: nat): ThreadState
    decreases n
  {
    if n == 0 then t else PopFrames(PopFrame(t, time), time, n - 1)
  }

  function ClearCallstack(t: ThreadState, time: Word64): ThreadState {
    PopFrames(t, time, |t.callstack.stack|)
  }

  /** Drops the current context and makes the one suspended last the current one. */
  function Resume(t: ThreadState): ThreadState
    requires t.inactive != []
  {
    t.(callstack := t.inactive[|t.inactive| - 1], inactive := t.inactive[..|t.inactive| - 1])
  }

  /** Suspends the current context and opens an empty one. */
  function Suspend(t: ThreadState, time: Word64): ThreadState {
    t.(inactive := t.inactive + [t.callstack], callstack := Callstack([], time))
  }

  lemma {:induction false} PopFramesKeep(t: ThreadState, time: Word64, n: nat)
    ensures PopFrames(t, time, n).inactive == t.inactive
    ensures PopFrames(t, time, n).callstack.createTime == t.callstack.createTime
    ensures PopFrames(t, time, n).lastEventTime == t.lastEventTime
    ensures n <= |t.callstack.stack| ==>
              PopFrames(t, time, n).callstack.stack == t.callstack.stack[..|t.callstack.stack| - n]
    decreases n
  {
    if n > 0 {
      PopFramesKeep(PopFrame(t, time), time, n - 1);
    }
  }

  function ClearAll(t: ThreadState, time: Word64): ThreadState
    decreases |t.inactive|
  {
    var c := ClearCallstack(t, time);
    PopFramesKeep(t, time, |t.callstack.stack|);
    if c.inactive == [] then c else ClearAll(Resume(c), time)
  }

  lemma {:induction false} ClearAllLast(t: ThreadState, time: Word64)
    ensures ClearAll(t, time).lastEventTime == t.lastEventTime
    decreases |t.inactive|
  {
    var c := ClearCallstack(t, time);
    PopFramesKeep(t, time, |t.callstack.stack|);
    if c.inactive != [] {
      ClearAllLast(Resume(c), time);
    }
  }

  // ----- Events ----------------------------------------------------------------------------

  function StartTrace(t: ThreadState, time: Word64, dst: Location): ThreadState {
    var u := if TopIs(t, UNTRACED) then PopFrame(t, time) else t;
    CheckCurrentSymbol(u, time, dst)
  }

  function TakeBranch(t: ThreadState, time: Word64, kind: BranchKind, src: Location, dst: Location): ThreadState {
    match kind
    case Call => PushFrame(CheckCurrentSymbol(t, time, src), time, dst)
    case Return => CheckCurrentSymbol(PopFrame(t, time), time, dst)
    case Syscall => PushFrame(Suspend(t, time), time, dst)
    case HardwareInterrupt => PushFrame(Suspend(t, time), time, dst)
    case Iret => LeaveContext(t, time, dst)
    case Sysret => LeaveContext(t, time, dst)
    case Jump => CheckCurrentSymbol(t, time, dst)
    case Interrupt => CheckCurrentSymbol(t, time, dst)
    case Async => CheckCurrentSymbol(t, time, dst)
    case TxAbort => CheckCurrentSymbol(t, time, dst)
  }

  function LeaveContext(t: ThreadState, time: Word64, dst: Location): ThreadState {
    var c := ClearCallstack(t, time);
    if c.inactive != [] then CheckCurrentSymbol(Resume(c), time, dst)
    else c.(callstack := c.callstack.(createTime := time))
  }

  function ProcessBranch(t: ThreadState, time: Word64, br: BranchData): ThreadState {
    if br.traceState == End then PushFrame(t, time, Location(0, UNTRACED, 0))
    else
      var s := if br.traceState == Start then StartTrace(t, time, br.dst) else t;
      if br.kind.None? then s else TakeBranch(s, time, br.kind.value, br.src, br.dst)
  }

  /** The number of frames, from the bottom up, on which the two stacks agree by symbol. */
  function MatchCount(current: seq<Location>, sample: seq<Location>): (n: nat)
    ensures n <= |current| && n <= |sample|
  {
    if current != [] && sample != [] && current[0].symbol == sample[0].symbol
    then 1 + MatchCount(current[1..], sample[1..])
    else 0
  }

  function PushFrames(t: ThreadState, time: Word64, locs: seq<Location>): ThreadState {
    if locs == [] then t
    else PushFrame(PushFrames(t, time, locs[..|locs| - 1]), time, locs[|locs| - 1])
  }

  lemma {:induction false} PushFramesKeep(t: ThreadState, time: Word64, locs: seq<Location>)
    ensures var r := PushFrames(t, time, locs);
            r.callstack == t.callstack.(stack := t.callstack.stack + locs) && r.inactive == t.inactive &&
            r.lastEventTime == t.lastEventTime
    decreases |locs|
  {
    if locs == [] {
      assert t.callstack.stack + locs == t.callstack.stack;
    } else {
      var n := |locs| - 1;
      PushFramesKeep(t, time, locs[..n]);
      assert t.callstack.stack + locs[..n] + [locs[n]] == t.callstack.stack + locs;
    }
  }

  function ProcessSample(t: ThreadState, time: Word64, sample: seq<Location>): ThreadState {
    var m := MatchCount(t.callstack.stack, sample);
    PushFrames(PopFrames(t, time, |t.callstack.stack| - m), time, sample[m..])
  }

  predicate IsBranch(e: Event) {
    e.Ok? && e.data.Branch?
  }

  /** A syscall or interrupt that is acted on: at a trace end the kind is ignored. */
  predicate EntersContext(e: Event) {
    IsBranch(e) && e.data.branch.traceState != End &&
    (e.data.branch.kind == Some(Syscall) || e.data.branch.kind == Some(HardwareInterrupt))
  }

  predicate LeavesContext(e: Event) {
    IsBranch(e) && e.data.branch.traceState != End &&
    (e.data.branch.kind == Some(Sysret) || e.data.branch.kind == Some(Iret))
  }

  /** One event of the thread, at its mapped time. */
  function StepAt(t: ThreadState, time: Word64, e: Event): ThreadState {
    var l := t.(lastEventTime := time);
    match e
    case Ok(_, _, _, Branch(br)) => ProcessBranch(l, time, br)
    case Ok(_, _, _, StacktraceSample(sample)) => ProcessSample(l, time, sample)
    case Ok(_, _, _, Power(_)) => t
    case Ok(_, _, _, EventSample(_, _, _)) => t
    case DecodeError(_, _, _, _, _) => ClearAll(l, time)
  }

  function Step(t: ThreadState, base: Word64, e: Event): ThreadState {
    if e.Relevant() then StepAt(t, MapTime(base, e.Time()), e) else t
  }

  /** All of one thread's events in order. */
  function RunThread(t: ThreadState, base: Word64, events: seq<Event>): ThreadState {
    if events == [] then t
    else Step(RunThread(t, base, events[..|events| - 1]), base, events[|events| - 1])
  }

  function FinishThread(t: ThreadState): ThreadState {
    var f := Flush(t, t.lastEventTime);
    var c := ClearAll(f, t.lastEventTime);
    Flush(c, t.lastEventTime)
  }

  lemma {:induction false} RunThreadAppend(t: ThreadState, base: Word64, a: seq<Event>, b: seq<Event>)
    ensures RunThread(t, base, a + b) == RunThread(RunThread(t, base, a), base, b)
    decreases |b|
  {
    if b == [] {
      assert a + b == a;
    } else {
      assert (a + b)[..|a + b| - 1] == a + b[..|b| - 1];
      RunThreadAppend(t, base, a, b[..|b| - 1]);
    }
  }

  lemma {:induction false} RunSingle(t: ThreadState, base: Word64, e: Event)
    ensures RunThread(t, base, [e]) == Step(t, base, e)
  {
    assert [e][..0] == [];
    assert RunThread(t, base, []) == t;
  }

  // ----- The log only grows ------------------------------------------------------------------

  predicate Grows(t: ThreadState, r: ThreadState) {
    t.written <= r.written
  }

  lemma {:induction false} CheckGrows(t: ThreadState, time: Word64, loc: Location)
    ensures Grows(t, CheckCurrentSymbol(t, time, loc))
  {
  }

  lemma {:induction false} PopFramesGrow(t: ThreadState, time: Word64, n: nat)
    ensures Grows(t, PopFrames(t, time, n))
    decreases n
  {
    if n > 0 {
      PopFramesGrow(PopFrame(t, time), time, n - 1);
    }
  }

  lemma {:induction false} PushFramesGrow(t: ThreadState, time: Word64, locs: seq<Location>)
    ensures Grows(t, PushFrames(t, time, locs))
    decreases |locs|
  {
    if locs != [] {
      PushFramesGrow(t, time, locs[..|locs| - 1]);
    }
  }

  lemma {:induction false} ClearAllGrows(t: ThreadState, time: Word64)
    ensures Grows(t, ClearAll(t, time))
    decreases |t.inactive|
  {
    var c := ClearCallstack(t, time);
    PopFramesKeep(t, time, |t.callstack.stack|);
    PopFramesGrow(t, time, |t.callstack.stack|);
    if c.inactive != [] {
      ClearAllGrows(Resume(c), time);
    }
  }

  lemma {:induction false} LeaveGrows(t: ThreadState, time: Word64, dst: Location)
    ensures Grows(t, LeaveContext(t, time, dst))
  {
    var c := ClearCallstack(t, time);
    PopFramesGrow(t, time, |t.callstack.stack|);
    if c.inactive != [] {
      CheckGrows(Resume(c), time, dst);
    }
  }

  lemma {:induction false} TakeBranchGrows(t: ThreadState, time: Word64, kind: BranchKind, src: Location, dst: Location)
    ensures Grows(t, TakeBranch(t, time, kind, src, dst))
  {
    hide CheckCurrentSymbol, LeaveContext;
    match kind
    case Call => CheckGrows(t, time, src);
    case Return => CheckGrows(PopFrame(t, time), time, dst);
    case Syscall =>
    case HardwareInterrupt =>
    case Iret => LeaveGrows(t, time, dst);
    case Sysret => LeaveGrows(t, time, dst);
    case _ => CheckGrows(t, time, dst);
  }

  lemma {:induction false} BranchGrows(t: ThreadState, time: Word64, br: BranchData)
    ensures Grows(t, ProcessBranch(t, time, br))
  {
    hide CheckCurrentSymbol, TakeBranch;
    if br.traceState != End {
      var s := t;
      if br.traceState == Start {
        CheckGrows(if TopIs(t, UNTRACED) then PopFrame(t, time) else t, time, br.dst);
        s := StartTrace(t, time, br.dst);
      }
      if br.kind.Some? {
        TakeBranchGrows(s, time, br.kind.value, br.src, br.dst);
      }
    }
  }

  lemma {:induction false} SampleGrows(t: ThreadState, time: Word64, sample: seq<Location>)
    ensures Grows(t, ProcessSample(t, time, sample))
  {
    hide PopFrames, PushFrames, MatchCount;
    var m := MatchCount(t.callstack.stack, sample);
    PopFramesGrow(t, time, |t.callstack.stack| - m);
    PushFramesGrow(PopFrames(t, time, |t.callstack.stack| - m), time, sample[m..]);
  }

  lemma {:induction false} StepGrows(t: ThreadState, base: Word64, e: Event)
    ensures Grows(t, Step(t, base, e))
  {
    hide ProcessBranch, ProcessSample, ClearAll;
    if e.Relevant() {
      var time := MapTime(base, e.Time());
      var l := t.(lastEventTime := time);
      match e
      case Ok(_, _, _, Branch(br)) => BranchGrows(l, time, br);
      case Ok(_, _, _, StacktraceSample(sample)) => SampleGrows(l, time, sample);
      case DecodeError(_, _, _, _, _) => ClearAllGrows(l, time);
      case _ =>
    }
  }

  lemma {:induction false} FinishGrows(t: ThreadState)
    ensures Grows(t, FinishThread(t))
  {
    var f := Flush(t, t.lastEventTime);
    ClearAllGrows(f, t.lastEventTime);
  }
}
