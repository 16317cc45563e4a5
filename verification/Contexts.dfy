/** Syscalls and interrupts do not disturb the stack they suspend. */
module Contexts {
  import opened Texts
  import opened PerfEvent
  import opened ThreadMachine

  /** A decode error with a time drops every context. */
  predicate DropsContexts(e: Event) {
    e.DecodeError? && e.Relevant()
  }

  /** How many contexts a run of events leaves open, or `None` if it leaves one it did not enter. */
  function Depth(events: seq<Event>): Option<nat> {
    if events == [] then Some(0)
    else
      match Depth(events[..|events| - 1])
      case None => None
      case Some(d) =>
        var e := events[|events| - 1];
        if EntersContext(e) then Some(d + 1)
        else if LeavesContext(e) then (if d == 0 then None else Some(d - 1))
        else Some(d)
  }

  /** The live stack an entering event suspends: a trace start is handled before it. */
  function Suspended(t: ThreadState, base: Word64, e: Event): Callstack
    requires EntersContext(e)
  {
    var time := MapTime(base, e.timeNs);
    var br := e.data.branch;
    if br.traceState == Start then StartTrace(t.(lastEventTime := time), time, br.dst).callstack else t.callstack
  }

  lemma {:induction false} CheckKeeps(t: ThreadState, time: Word64, loc: Location)
    ensures CheckCurrentSymbol(t, time, loc).inactive == t.inactive
  {
  }

  /** What each event does to the suspended stacks. */
  lemma {:induction false} StepInactive(t: ThreadState, base: Word64, e: Event)
    requires !DropsContexts(e)
    ensures var r := Step(t, base, e);
            r.inactive ==
            if EntersContext(e) then t.inactive + [Suspended(t, base, e)]
            else if LeavesContext(e) && t.inactive != [] then t.inactive[..|t.inactive| - 1]
            else t.inactive
  {
    hide ProcessBranch, StartTrace, PopFrames, PushFrames, MatchCount, ClearAll;
    if IsBranch(e) {
      BranchInactive(t, base, e);
    } else if e.Relevant() {
      var time := MapTime(base, e.Time());
      var l := t.(lastEventTime := time);
      var sample := e.data.callstack;
      var k := |l.callstack.stack| - MatchCount(l.callstack.stack, sample);
      PopFramesKeep(l, time, k);
      PushFramesKeep(PopFrames(l, time, k), time, sample[|l.callstack.stack| - k..]);
    }
  }

  lemma {:induction false} BranchInactive(t: ThreadState, base: Word64, e: Event)
    requires IsBranch(e)
    ensures var r := Step(t, base, e);
            r.inactive ==
            if EntersContext(e) then t.inactive + [Suspended(t, base, e)]
            else if LeavesContext(e) && t.inactive != [] then t.inactive[..|t.inactive| - 1]
            else t.inactive
  {
    var time := MapTime(base, e.Time());
    var br := e.data.branch;
    if br.traceState != End {
      var s := t.(lastEventTime := time);
      if br.traceState == Start {
        CheckKeeps(if TopIs(s, UNTRACED) then PopFrame(s, time) else s, time, br.dst);
        s := StartTrace(s, time, br.dst);
      }
      if br.kind.Some? {
        TakeBranchInactive(s, time, br.kind.value, br.src, br.dst);
      }
    }
  }

  lemma {:induction false} TakeBranchInactive(t: ThreadState, time: Word64, kind: BranchKind, src: Location,
      dst: Location)
    ensures var r := TakeBranch(t, time, kind, src, dst);
            r.inactive ==
            if kind.Syscall? || kind.HardwareInterrupt? then t.inactive + [t.callstack]
            else if (kind.Sysret? || kind.Iret?) && t.inactive != [] then t.inactive[..|t.inactive| - 1]
            else t.inactive
  {
    match kind
    case Call => CheckKeeps(t, time, src);
    case Return => CheckKeeps(PopFrame(t, time), time, dst);
    case Syscall =>
    case HardwareInterrupt =>
    case Iret => LeaveInactive(t, time, dst);
    case Sysret => LeaveInactive(t, time, dst);
    case _ => CheckKeeps(t, time, dst);
  }

  lemma {:induction false} LeaveInactive(t: ThreadState, time: Word64, dst: Location)
    ensures LeaveContext(t, time, dst).inactive ==
            if t.inactive != [] then t.inactive[..|t.inactive| - 1] else t.inactive
  {
    var c := ClearCallstack(t, time);
    PopFramesKeep(t, time, |t.callstack.stack|);
    if c.inactive != [] {
      CheckKeeps(Resume(c), time, dst);
    }
  }

  /** Inside a bracket the stacks suspended before it stay as they are, and as many more are
      suspended as there are open brackets. */
  lemma {:induction false} BodyKeepsSuspended(t: ThreadState, base: Word64, body: seq<Event>)
    requires forall i :: 0 <= i < |body| ==> !DropsContexts(body[i])
    requires forall k :: 0 <= k <= |body| ==> Depth(body[..k]).Some?
    ensures var r := RunThread(t, base, body);
            Depth(body).Some? &&
            |r.inactive| == |t.inactive| + Depth(body).value && t.inactive <= r.inactive
    decreases |body|
  {
    assert body[..|body|] == body;
    if body != [] {
      var n := |body| - 1;
      assert forall k :: 0 <= k <= n ==> body[..n][..k] == body[..k];
      BodyKeepsSuspended(t, base, body[..n]);
      StepInactive(RunThread(t, base, body[..n]), base, body[n]);
    }
  }

  /** A bracketed block: an entry, a body with matched brackets inside, and the exit. */
  predicate Bracket(events: seq<Event>) {
    && 2 <= |events|
    && EntersContext(events[0]) && LeavesContext(events[|events| - 1])
    && (forall i :: 0 <= i < |events| ==> !DropsContexts(events[i]))
    && (forall k :: 1 <= k < |events| ==> Depth(events[1..k]).Some?)
    && Depth(events[1..|events| - 1]) == Some(0)
  }

  lemma {:induction false} InsideBracket(t: ThreadState, base: Word64, events: seq<Event>, k: nat)
    requires Bracket(events) && 1 <= k < |events|
    ensures var all := t.inactive + [Suspended(t, base, events[0])];
            var r := RunThread(t, base, events[..k]);
            all <= r.inactive && (k == |events| - 1 ==> r.inactive == all)
  {
    hide Step, RunThread, Suspended;
    var body := events[1..k];
    assert events[..k] == [events[0]] + body;
    RunThreadAppend(t, base, [events[0]], body);
    RunSingle(t, base, events[0]);
    StepInactive(t, base, events[0]);
    assert forall j :: 0 <= j < k ==> body[..j] == events[1..j + 1];
    BodyKeepsSuspended(Step(t, base, events[0]), base, body);
  }

  // ----- Main result ------------------------------------------------------------------------

  /** Across a bracketed block the suspended stacks are untouched at every point, and afterwards the
      saved stack is the live one again exactly if it has a frame and its top is the exit's target. */
  lemma {:induction false} ContextIsolation(t: ThreadState, base: Word64, events: seq<Event>)
    requires Bracket(events)
    ensures var saved := Suspended(t, base, events[0]);
            var last := events[|events| - 1];
            var r := RunThread(t, base, events);
            (forall k :: 1 <= k < |events| ==> t.inactive + [saved] <= RunThread(t, base, events[..k]).inactive) &&
            r.inactive == t.inactive &&
            (r.callstack == saved <==>
             saved.stack != [] && saved.stack[|saved.stack| - 1].symbol == last.data.branch.dst.symbol)
  {
    hide Step, Depth, RunThread, Suspended;
    var saved := Suspended(t, base, events[0]);
    forall k | 1 <= k < |events|
      ensures t.inactive + [saved] <= RunThread(t, base, events[..k]).inactive
    {
      InsideBracket(t, base, events, k);
    }
    var n := |events| - 1;
    InsideBracket(t, base, events, n);
    assert events == events[..n] + [events[n]];
    RunThreadAppend(t, base, events[..n], [events[n]]);
    RunSingle(RunThread(t, base, events[..n]), base, events[n]);
    ExitRestores(RunThread(t, base, events[..n]), base, events[n]);
  }

  /** Leaving a context makes the stack suspended last the live one again, apart from the check of
      its top against the target. */
  lemma {:induction false} ExitRestores(t: ThreadState, base: Word64, e: Event)
    requires LeavesContext(e) && t.inactive != []
    ensures var saved := t.inactive[|t.inactive| - 1];
            var r := Step(t, base, e);
            r.inactive == t.inactive[..|t.inactive| - 1] &&
            (r.callstack == saved <==>
             saved.stack != [] && saved.stack[|saved.stack| - 1].symbol == e.data.branch.dst.symbol)
  {
    hide LeaveContext, CheckCurrentSymbol;
    BranchInactive(t, base, e);
    var time := MapTime(base, e.Time());
    var br := e.data.branch;
    var s := t.(lastEventTime := time);
    if br.traceState == Start {
      CheckKeeps(if TopIs(s, UNTRACED) then PopFrame(s, time) else s, time, br.dst);
      s := StartTrace(s, time, br.dst);
    }
    assert s.inactive == t.inactive;
    assert Step(t, base, e) == LeaveContext(s, time, br.dst);
    LeaveRestores(s, time, br.dst);
  }

  lemma {:induction false} LeaveRestores(s: ThreadState, time: Word64, dst: Location)
    requires s.inactive != []
    ensures var saved := s.inactive[|s.inactive| - 1];
            LeaveContext(s, time, dst).callstack == saved <==>
            saved.stack != [] && saved.stack[|saved.stack| - 1].symbol == dst.symbol
  {
    var saved := s.inactive[|s.inactive| - 1];
    var c := ClearCallstack(s, time);
    PopFramesKeep(s, time, |s.callstack.stack|);
    var m := Resume(c);
    var r := CheckCurrentSymbol(m, time, dst);
    assert m.callstack == saved;
    if saved.stack != [] && saved.stack[|saved.stack| - 1].symbol != dst.symbol {
      assert r.callstack.stack[|r.callstack.stack| - 1] == dst;
    }
  }
}
