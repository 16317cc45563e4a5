/** Reconciling the live stack with sampled ones. */
module Samples {
  import opened Texts
  import opened PerfEvent
  import opened ThreadMachine
  import opened StackDiscipline

  /** The length of the longest common prefix. */
  function Common(a: seq<Text>, b: seq<Text>): (n: nat)
    ensures n <= |a| && n <= |b|
    ensures a[..n] == b[..n]
    ensures n < |a| && n < |b| ==> a[n] != b[n]
  {
    if a != [] && b != [] && a[0] == b[0] then
      assert a == [a[0]] + a[1..] && b == [b[0]] + b[1..];
      1 + Common(a[1..], b[1..])
    else 0
  }

  lemma {:induction false} CommonAtLeast(a: seq<Text>, b: seq<Text>, n: nat)
    requires n <= |a| && n <= |b| && a[..n] == b[..n]
    ensures n <= Common(a, b)
  {
    forall m | 0 <= m < n ensures a[m] == b[m] {
      assert a[m] == a[..n][m];
    }
  }

  /** The fewest pushes and pops between two stacks. */
  function Distance(a: seq<Text>, b: seq<Text>): nat {
    |a| + |b| - 2 * Common(a, b)
  }

  /** No sequence of stack operations gets from one stack to another in fewer steps. */
  lemma {:induction false} DistanceIsLeast(ops: seq<Op>, a: seq<Text>, b: seq<Text>)
    requires Replay(ops, a) == Some(b)
    ensures |ops| >= Distance(a, b)
    decreases |ops|
  {
    if ops == [] {
      CommonAtLeast(a, b, |a|);
    } else {
      var a' := if ops[0].Push? then a + [ops[0].symbol] else a[..|a| - 1];
      DistanceIsLeast(ops[1..], a', b);
      var m := Common(a', b);
      if ops[0].Push? {
        var k := Min(m, |a|);
        assert a[..k] == a'[..k] == a'[..m][..k] == b[..m][..k] == b[..k];
        CommonAtLeast(a, b, k);
      } else {
        assert a[..m] == a'[..m];
        CommonAtLeast(a, b, m);
      }
    }
  }

  lemma {:induction false} MatchIsCommon(current: seq<Location>, sample: seq<Location>)
    ensures MatchCount(current, sample) == Common(Symbols(current), Symbols(sample))
    decreases |current|
  {
    if current != [] && sample != [] && current[0].symbol == sample[0].symbol {
      assert Symbols(current)[1..] == Symbols(current[1..]) && Symbols(sample)[1..] == Symbols(sample[1..]);
      MatchIsCommon(current[1..], sample[1..]);
    }
  }

  /** From `t` to `r` the trace grows by `ops`, which turn the one live stack into the other. */
  predicate Reconciles(t: ThreadState, r: ThreadState, ops: seq<Op>) {
    Trace(r) == Trace(t) + ops &&
    Replay(ops, Symbols(t.callstack.stack)) == Some(Symbols(r.callstack.stack))
  }

  /** Reconciliation leaves the suspended stacks alone, makes the live stack's symbols the sample's,
      and its operations are as few as any that do. */
  lemma {:induction false} SampleReconciled(t: ThreadState, time: Word64, sample: seq<Location>) returns (ops: seq<Op>)
    ensures var r := ProcessSample(t, time, sample);
            Symbols(r.callstack.stack) == Symbols(sample) && r.inactive == t.inactive &&
            r.callstack.createTime == t.callstack.createTime &&
            Reconciles(t, r, ops) &&
            forall other :: Replay(other, Symbols(t.callstack.stack)) == Some(Symbols(sample)) ==> |ops| <= |other|
  {
    hide PopFrames, PushFrames, Trace, Replay, Common, Symbols;
    var current := t.callstack.stack;
    var m := MatchCount(current, sample);
    MatchIsCommon(current, sample);
    var p := PopFrames(t, time, |current| - m);
    var pops := PopFramesTrace(t, time, |current| - m);
    PopFramesKeep(t, time, |current| - m);
    var pushes := PushFramesTrace(p, time, sample[m..]);
    PushFramesKeep(p, time, sample[m..]);
    ReplayAppend(pops, pushes, Symbols(current));
    ops := pops + pushes;
    assert ProcessSample(t, time, sample).callstack.stack == current[..m] + sample[m..];
    assert current[..|current| - (|current| - m)] == current[..m];
    assert Trace(t) + pops + pushes == Trace(t) + ops;
    SymbolsOfMatch(current, sample, m);
    forall other | Replay(other, Symbols(current)) == Some(Symbols(sample)) ensures |ops| <= |other| {
      DistanceIsLeast(other, Symbols(current), Symbols(sample));
    }
  }

  lemma {:induction false} SymbolsOfMatch(current: seq<Location>, sample: seq<Location>, m: nat)
    requires m <= |current| && m <= |sample| && Symbols(current)[..m] == Symbols(sample)[..m]
    ensures Symbols(current[..m]) + Symbols(sample[m..]) == Symbols(current[..m] + sample[m..]) == Symbols(sample)
  {
    assert Symbols(current[..m]) == Symbols(current)[..m];
    assert Symbols(sample) == Symbols(sample)[..m] + Symbols(sample[m..]);
  }

  lemma {:induction false} PopFramesTrace(t: ThreadState, time: Word64, n: nat) returns (ops: seq<Op>)
    requires n <= |t.callstack.stack|
    ensures |ops| == n && Trace(PopFrames(t, time, n)) == Trace(t) + ops
    ensures Replay(ops, Symbols(t.callstack.stack)) == Some(Symbols(t.callstack.stack[..|t.callstack.stack| - n]))
    decreases n
  {
    hide Trace;
    var stack := t.callstack.stack;
    if n == 0 {
      ops := [];
      assert stack[..|stack|] == stack;
    } else {
      RetTrace(t, time);
      var r := PopFrame(t, time);
      var rest := PopFramesTrace(r, time, n - 1);
      ops := [Pop(stack[|stack| - 1].symbol)] + rest;
      assert Symbols(stack)[..|stack| - 1] == Symbols(r.callstack.stack);
      assert r.callstack.stack[..|stack| - n] == stack[..|stack| - n];
      assert ops[1..] == rest;
    }
  }

  lemma {:induction false} PushFramesTrace(t: ThreadState, time: Word64, locs: seq<Location>) returns (ops: seq<Op>)
    ensures |ops| == |locs|
    ensures Trace(PushFrames(t, time, locs)) == Trace(t) + ops
    ensures Replay(ops, Symbols(t.callstack.stack)) == Some(Symbols(t.callstack.stack) + Symbols(locs))
    decreases |locs|
  {
    if locs == [] {
      ops := [];
      assert Symbols(t.callstack.stack) + Symbols(locs) == Symbols(t.callstack.stack);
    } else {
      var n := |locs| - 1;
      var first := PushFramesTrace(t, time, locs[..n]);
      CallTrace(PushFrames(t, time, locs[..n]), time, locs[n], false);
      ops := first + [Push(locs[n].symbol)];
      ReplayAppend(first, [Push(locs[n].symbol)], Symbols(t.callstack.stack));
      var s := Symbols(t.callstack.stack) + Symbols(locs[..n]);
      assert [Push(locs[n].symbol)][1..] == [];
      assert Replay([Push(locs[n].symbol)], s) == Replay([], s + [locs[n].symbol]);
      assert Symbols(locs) == Symbols(locs[..n]) + [locs[n].symbol];
      assert s + [locs[n].symbol] == Symbols(t.callstack.stack) + Symbols(locs);
    }
  }

  // ----- Runs of samples ----------------------------------------------------------------------

  predicate SamplesOnly(events: seq<Event>) {
    forall i :: 0 <= i < |events| ==> events[i].Ok? && events[i].data.StacktraceSample?
  }

  /** A fresh thread's state after samples: only the live stack holds frames, and it is the last
      sample's. */
  lemma {:induction false} SampledStack(base: Word64, events: seq<Event>)
    requires SamplesOnly(events)
    ensures var t := RunThread(FRESH_THREAD, base, events);
            t.inactive == [] &&
            Symbols(t.callstack.stack) == (if events == [] then [] else Symbols(events[|events| - 1].data.callstack))
    decreases |events|
  {
    hide ProcessSample, Trace, Replay;
    if events != [] {
      var n := |events| - 1;
      SampledStack(base, events[..n]);
      var time := MapTime(base, events[n].timeNs);
      var ops := SampleReconciled(RunThread(FRESH_THREAD, base, events[..n]).(lastEventTime := time), time,
        events[n].data.callstack);
    }
  }

  predicate IsPrefix(a: seq<Op>, b: seq<Op>) {
    |a| <= |b| && a == b[..|a|]
  }

  lemma {:induction false} TraceGrows(t: ThreadState, base: Word64, e: Event)
    requires e.Ok? && e.data.StacktraceSample?
    ensures IsPrefix(Trace(t), Trace(Step(t, base, e)))
  {
    var time := MapTime(base, e.timeNs);
    var ops := SampleReconciled(t.(lastEventTime := time), time, e.data.callstack);
  }

  lemma {:induction false} RunGrows(base: Word64, events: seq<Event>, k: nat)
    requires SamplesOnly(events) && k <= |events|
    ensures IsPrefix(Trace(RunThread(FRESH_THREAD, base, events[..k])), Trace(RunThread(FRESH_THREAD, base, events)))
    decreases |events|
  {
    var n := |events| - 1;
    if k == |events| {
      assert events[..k] == events;
    } else {
      assert events[..n][..k] == events[..k];
      RunGrows(base, events[..n], k);
      TraceGrows(RunThread(FRESH_THREAD, base, events[..n]), base, events[n]);
    }
  }

  lemma {:induction false} ClearAllTraceGrows(t: ThreadState, time: Word64)
    requires t.inactive == []
    ensures IsPrefix(Trace(t), Trace(ClearAll(t, time)))
  {
    PopFramesKeep(t, time, |t.callstack.stack|);
    var ops := PopFramesTrace(t, time, |t.callstack.stack|);
  }

  /** Where the finished log has reached after the first `k` samples. */
  function SampledAt(base: Word64, events: seq<Event>, k: nat): nat
    requires k <= |events|
  {
    |Trace(RunThread(FRESH_THREAD, base, events[..k]))|
  }

  /** After the `k`-th sample, and no later than after the one that follows it, the log's replay is
      at that sample's stack. */
  predicate AtSample(ops: seq<Op>, base: Word64, events: seq<Event>, k: nat)
    requires k < |events| && SamplesOnly(events)
  {
    SampledAt(base, events, k) <= SampledAt(base, events, k + 1) <= |ops| &&
    Replay(ops[..SampledAt(base, events, k + 1)], []) == Some(Symbols(events[k].data.callstack))
  }

  /** Over a run of samples only, replaying the finished log passes through each sample's stack, in
      order. */
  lemma {:induction false} LogPassesThroughSamples(base: Word64, events: seq<Event>)
    requires SamplesOnly(events)
    ensures var ops := Ops(FinishThread(RunThread(FRESH_THREAD, base, events)).written);
            forall k :: 0 <= k < |events| ==> AtSample(ops, base, events, k)
  {
    var ops := Ops(FinishThread(RunThread(FRESH_THREAD, base, events)).written);
    forall k | 0 <= k < |events| ensures AtSample(ops, base, events, k) {
      ReachesSample(base, events, k);
    }
  }

  lemma {:induction false} ReachesSample(base: Word64, events: seq<Event>, k: nat)
    requires SamplesOnly(events) && k < |events|
    ensures AtSample(Ops(FinishThread(RunThread(FRESH_THREAD, base, events)).written), base, events, k)
  {
    hide Trace, Replay;
    var t := RunThread(FRESH_THREAD, base, events);
    var ops := Ops(FinishThread(t).written);
    FinishTraceGrows(base, events);
    var some := events[..k + 1];
    RunGrows(base, events, k + 1);
    assert some[..k] == events[..k];
    RunGrows(base, some, k);
    SampledStack(base, some);
    ReachableConsistent(base, some);
    var s := RunThread(FRESH_THREAD, base, some);
    assert Flat(s) == Symbols(events[k].data.callstack);
    assert Trace(s) == Trace(t)[..|Trace(s)|] == ops[..|Trace(t)|][..|Trace(s)|] == ops[..|Trace(s)|];
  }

  lemma {:induction false} FinishTraceGrows(base: Word64, events: seq<Event>)
    requires SamplesOnly(events)
    ensures var t := RunThread(FRESH_THREAD, base, events);
            IsPrefix(Trace(t), Ops(FinishThread(t).written))
  {
    var t := RunThread(FRESH_THREAD, base, events);
    var last := t.lastEventTime;
    SampledStack(base, events);
    FlushTrace(t, last);
    var f := Flush(t, last);
    ClearAllTraceGrows(f, last);
    FlushTrace(ClearAll(f, last), last);
    var d := FinishThread(t);
    assert d.pending == [];
    assert Trace(d) == Ops(d.written);
  }

  // ----- Timestamps of a run of samples ---------------------------------------------------------

  predicate Ascending(log: seq<Entry>) {
    forall i, j :: 0 <= i < j < |log| ==> log[i].time <= log[j].time
  }

  predicate UpTo(log: seq<Entry>, bound: nat) {
    forall i :: 0 <= i < |log| ==> log[i].time <= bound
  }

  predicate NoUntraced(evs: seq<PendingEvent>) {
    forall i :: 0 <= i < |evs| ==> !evs[i].PendingRetFromUntraced?
  }

  predicate Steady(t: ThreadState, now: nat) {
    Ascending(t.written) && UpTo(t.written, now) && NoUntraced(t.pending) &&
    (t.pending != [] ==> t.pendingTime <= now && UpTo(t.written, t.pendingTime))
  }

  lemma {:induction false} SpreadSteady(evs: seq<PendingEvent>, at: Word64, left: nat)
    requires at + left < TWO_64 && NoUntraced(evs)
    ensures var out := Spread(evs, at, left);
            Ascending(out) && UpTo(out, at + left) && forall i :: 0 <= i < |out| ==> at <= out[i].time
    decreases |evs|
  {
    hide Ascending, UpTo;
    if evs == [] {
      NoneSteady(at + left);
    } else {
      var share := Share(evs, left);
      SpreadSteady(evs[1..], at + share, left - share);
      ConsSteady(EntriesOf(evs[0], at), Spread(evs[1..], at + share, left - share), at, at + left);
    }
  }

  lemma {:induction false} NoneSteady(end: nat)
    ensures Ascending([]) && UpTo([], end)
  {
  }

  lemma {:induction false} ConsSteady(first: seq<Entry>, rest: seq<Entry>, at: nat, end: nat)
    requires |first| == 1 && first[0].time == at <= end
    requires Ascending(rest) && UpTo(rest, end) && forall i :: 0 <= i < |rest| ==> at <= rest[i].time
    ensures var out := first + rest;
            Ascending(out) && UpTo(out, end) && forall i :: 0 <= i < |out| ==> at <= out[i].time
  {
  }

  lemma {:induction false} AddSteady(t: ThreadState, now: Word64, ev: PendingEvent)
    requires Steady(t, now) && !ev.PendingRetFromUntraced?
    ensures Steady(AddEvent(t, now, ev), now)
  {
    if t.pending != [] {
      SpreadSteady(t.pending, t.pendingTime, Elapsed(t, now));
    }
  }

  lemma {:induction false} PopFramesSteady(t: ThreadState, now: Word64, n: nat)
    requires Steady(t, now) && n <= |t.callstack.stack|
    ensures Steady(PopFrames(t, now, n), now)
    decreases n
  {
    if n > 0 {
      AddSteady(t, now, PendingRet(t.callstack.stack[|t.callstack.stack| - 1].symbol));
      PopFramesSteady(PopFrame(t, now), now, n - 1);
    }
  }

  lemma {:induction false} PushFramesSteady(t: ThreadState, now: Word64, locs: seq<Location>)
    requires Steady(t, now)
    ensures Steady(PushFrames(t, now, locs), now)
    decreases |locs|
  {
    if locs != [] {
      PushFramesSteady(t, now, locs[..|locs| - 1]);
      AddSteady(PushFrames(t, now, locs[..|locs| - 1]), now, PendingCall(locs[|locs| - 1], false));
    }
  }

  predicate NondecreasingFrom(base: Word64, events: seq<Event>) {
    SamplesOnly(events) &&
    (forall i :: 0 <= i < |events| ==> base <= events[i].timeNs) &&
    (forall i, j :: 0 <= i < j < |events| ==> events[i].timeNs <= events[j].timeNs)
  }

  lemma {:induction false} SampleSteady(t: ThreadState, now: Word64, sample: seq<Location>)
    requires Steady(t, now)
    ensures Steady(ProcessSample(t, now, sample), now)
    ensures ProcessSample(t, now, sample).lastEventTime == t.lastEventTime
  {
    hide Steady, PopFrames, PushFrames, MatchCount;
    var k := |t.callstack.stack| - MatchCount(t.callstack.stack, sample);
    PopFramesSteady(t, now, k);
    PopFramesKeep(t, now, k);
    PushFramesSteady(PopFrames(t, now, k), now, sample[|t.callstack.stack| - k..]);
    PushFramesKeep(PopFrames(t, now, k), now, sample[|t.callstack.stack| - k..]);
  }

  lemma {:induction false} SteadyLater(t: ThreadState, now: nat, later: nat)
    requires Steady(t, now) && now <= later
    ensures Steady(t, later)
  {
  }

  lemma {:induction false} RunSteady(base: Word64, events: seq<Event>)
    requires NondecreasingFrom(base, events)
    ensures var t := RunThread(FRESH_THREAD, base, events);
            Steady(t, t.lastEventTime) &&
            (events != [] ==> t.lastEventTime == events[|events| - 1].timeNs - base) &&
            (events == [] ==> t == FRESH_THREAD)
    decreases |events|
  {
    hide ProcessSample;
    if events != [] {
      var n := |events| - 1;
      RunSteady(base, events[..n]);
      var t := RunThread(FRESH_THREAD, base, events[..n]);
      var now := MapTime(base, events[n].timeNs);
      assert now == events[n].timeNs - base;
      SteadyLater(t, t.lastEventTime, now);
      assert Steady(t.(lastEventTime := now), now);
      SampleSteady(t.(lastEventTime := now), now, events[n].data.callstack);
    }
  }

  /** The finished log of samples whose times never go back has times that never go back. */
  lemma {:induction false} SampleTimesAscend(base: Word64, events: seq<Event>)
    requires NondecreasingFrom(base, events)
    ensures Ascending(FinishThread(RunThread(FRESH_THREAD, base, events)).written)
  {
    var t := RunThread(FRESH_THREAD, base, events);
    var last := t.lastEventTime;
    RunSteady(base, events);
    SampledStack(base, events);
    FlushSteady(t, last);
    var f := Flush(t, last);
    PopFramesSteady(f, last, |f.callstack.stack|);
    PopFramesKeep(f, last, |f.callstack.stack|);
    FlushSteady(ClearAll(f, last), last);
  }

  lemma {:induction false} FlushSteady(t: ThreadState, now: Word64)
    requires Steady(t, now)
    ensures Steady(Flush(t, now), now)
  {
    if t.pending != [] {
      SpreadSteady(t.pending, t.pendingTime, Elapsed(t, now));
    }
  }
}
