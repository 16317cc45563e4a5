/** A traced call tree comes out as its own pre- and post-order walk. */
module CallTree {
  import opened Texts
  import opened PerfEvent
  import opened ThreadMachine
  import opened StackDiscipline

  /** A function's execution: what it called, which kernel contexts interrupted it, where tracing
      paused. */
  datatype Tree = Node(symbol: Text, edges: seq<Edge>)

  datatype Edge = CallEdge(callee: Tree) | ContextEdge(handler: Tree) | Gap

  // ----- The events of a tree -----------------------------------------------------------------

  /** What perf reports at each point of the execution. */
  datatype Report =
    | Started(dst: Text)
    | Called(src: Text, dst: Text)
    | Returned(dst: Text)
    | Entered(dst: Text)
    | Left(dst: Text)
    | Stopped

  /** The event makes the report; its time, thread, addresses and remaining symbols are free. */
  predicate Makes(e: Event, r: Report) {
    IsBranch(e) &&
    var br := e.data.branch;
    match r
    case Started(dst) => br.traceState == Start && br.kind == None && br.dst.symbol == dst
    case Called(src, dst) =>
      br.traceState == Unchanged && br.kind == Some(Call) && br.src.symbol == src && br.dst.symbol == dst
    case Returned(dst) => br.traceState == Unchanged && br.kind == Some(Return) && br.dst.symbol == dst
    case Entered(dst) =>
      br.traceState == Unchanged && (br.kind == Some(Syscall) || br.kind == Some(HardwareInterrupt)) &&
      br.dst.symbol == dst
    case Left(dst) =>
      br.traceState == Unchanged && (br.kind == Some(Sysret) || br.kind == Some(Iret)) && br.dst.symbol == dst
    case Stopped => br.traceState == End
  }

  predicate MakesAll(events: seq<Event>, reports: seq<Report>) {
    |events| == |reports| && forall i :: 0 <= i < |events| ==> Makes(events[i], reports[i])
  }

  function EdgeReports(caller: Text, edge: Edge): seq<Report>
    decreases edge
  {
    match edge
    case CallEdge(t) => [Called(caller, t.symbol)] + EdgesReports(t.symbol, t.edges) + [Returned(caller)]
    case ContextEdge(t) => [Entered(t.symbol)] + EdgesReports(t.symbol, t.edges) + [Left(caller)]
    case Gap => [Stopped, Started(caller)]
  }

  function EdgesReports(caller: Text, edges: seq<Edge>): seq<Report>
    decreases edges
  {
    if edges == [] then [] else EdgeReports(caller, edges[0]) + EdgesReports(caller, edges[1..])
  }

  /** Tracing starts in the root. */
  function Reports(tree: Tree): seq<Report> {
    [Started(tree.symbol)] + EdgesReports(tree.symbol, tree.edges)
  }

  // ----- The walk of a tree -------------------------------------------------------------------

  function Walk(tree: Tree): seq<Op> {
    [Push(tree.symbol)] + EdgesWalk(tree.edges) + [Pop(tree.symbol)]
  }

  function EdgeWalk(edge: Edge): seq<Op> {
    match edge
    case CallEdge(t) => [Push(t.symbol)] + EdgesWalk(t.edges) + [Pop(t.symbol)]
    case ContextEdge(t) => [Push(t.symbol)] + EdgesWalk(t.edges) + [Pop(t.symbol)]
    case Gap => [Push(UNTRACED), Pop(UNTRACED)]
  }

  function EdgesWalk(edges: seq<Edge>): seq<Op> {
    if edges == [] then [] else EdgeWalk(edges[0]) + EdgesWalk(edges[1..])
  }

  // ----- Single events ------------------------------------------------------------------------

  /** From `t` to `r` the stacks change to `cs` over `inactive` and the trace grows by one operation. */
  predicate Moves(t: ThreadState, r: ThreadState, cs: Callstack, inactive: seq<Callstack>, op: Op) {
    r.callstack == cs && r.inactive == inactive && Trace(r) == Trace(t) + [op]
  }

  function Pushed(cs: Callstack, loc: Location): Callstack {
    cs.(stack := cs.stack + [loc])
  }

  lemma {:induction false} CallStep(t: ThreadState, base: Word64, e: Event, src: Text, dst: Text)
    requires Makes(e, Called(src, dst)) && TopIs(t, src)
    ensures Moves(t, Step(t, base, e), Pushed(t.callstack, e.data.branch.dst), t.inactive, Push(dst))
  {
    var time := MapTime(base, e.timeNs);
    var l := t.(lastEventTime := time);
    assert Step(t, base, e) == PushFrame(l, time, e.data.branch.dst);
    CallTrace(l, time, e.data.branch.dst, false);
  }

  lemma {:induction false} ReturnStep(t: ThreadState, base: Word64, e: Event, cs: Callstack, callee: Location,
      dst: Text)
    requires Makes(e, Returned(dst)) && t.callstack == Pushed(cs, callee)
    requires cs.stack != [] && cs.stack[|cs.stack| - 1].symbol == dst
    ensures Moves(t, Step(t, base, e), cs, t.inactive, Pop(callee.symbol))
  {
    var time := MapTime(base, e.timeNs);
    var l := t.(lastEventTime := time);
    var r := PopFrame(l, time);
    RetTrace(l, time);
    assert r.callstack == cs;
    assert CheckCurrentSymbol(r, time, e.data.branch.dst) == r;
  }

  lemma {:induction false} EnterStep(t: ThreadState, base: Word64, e: Event, dst: Text)
    requires Makes(e, Entered(dst))
    ensures Moves(t, Step(t, base, e), Callstack([e.data.branch.dst], MapTime(base, e.timeNs)),
                  t.inactive + [t.callstack], Push(dst))
  {
    var time := MapTime(base, e.timeNs);
    var l := t.(lastEventTime := time);
    CallTrace(Suspend(l, time), time, e.data.branch.dst, false);
  }

  lemma {:induction false} LeaveStep(t: ThreadState, base: Word64, e: Event, saved: Callstack, inactive: seq<Callstack>,
      handler: Location, dst: Text)
    requires Makes(e, Left(dst)) && t.callstack.stack == [handler] && t.inactive == inactive + [saved]
    requires saved.stack != [] && saved.stack[|saved.stack| - 1].symbol == dst
    ensures Moves(t, Step(t, base, e), saved, inactive, Pop(handler.symbol))
  {
    var time := MapTime(base, e.timeNs);
    var l := t.(lastEventTime := time);
    var c := PopFrame(l, time);
    assert ClearCallstack(l, time) == c by {
      assert PopFrames(c, time, 0) == c;
    }
    RetTrace(l, time);
    assert c.inactive[..|c.inactive| - 1] == inactive;
    assert Resume(c).callstack == saved;
    assert CheckCurrentSymbol(Resume(c), time, e.data.branch.dst) == Resume(c);
  }

  lemma {:induction false} GapSteps(t: ThreadState, base: Word64, stop: Event, start: Event, dst: Text)
    requires Makes(stop, Stopped) && Makes(start, Started(dst)) && TopIs(t, dst)
    ensures var r := Step(Step(t, base, stop), base, start);
            r.callstack == t.callstack && r.inactive == t.inactive &&
            Trace(r) == Trace(t) + [Push(UNTRACED), Pop(UNTRACED)]
  {
    var time := MapTime(base, stop.timeNs);
    var marker := Location(0, UNTRACED, 0);
    CallTrace(t.(lastEventTime := time), time, marker, false);
    var m := Step(t, base, stop);
    assert m.callstack == Pushed(t.callstack, marker) && Trace(m) == Trace(t) + [Push(UNTRACED)];
    var time' := MapTime(base, start.timeNs);
    var l := m.(lastEventTime := time');
    RetTrace(l, time');
    var r := PopFrame(l, time');
    assert r.callstack == t.callstack;
    assert CheckCurrentSymbol(r, time', start.data.branch.dst) == r;
    assert Trace(t) + [Push(UNTRACED)] + [Pop(UNTRACED)] == Trace(t) + [Push(UNTRACED), Pop(UNTRACED)];
  }

  // ----- Whole subtrees -----------------------------------------------------------------------

  /** A piece of the run gives the stacks back as it found them and traces its walk. */
  predicate Traces(t: ThreadState, r: ThreadState, ops: seq<Op>) {
    r.callstack == t.callstack && r.inactive == t.inactive && Trace(r) == Trace(t) + ops
  }

  lemma {:induction false} RunBracket(t: ThreadState, base: Word64, events: seq<Event>)
    requires |events| >= 2
    ensures var n := |events| - 1;
            RunThread(t, base, events) ==
            Step(RunThread(Step(t, base, events[0]), base, events[1..n]), base, events[n])
  {
    var n := |events| - 1;
    assert events[..n] == [events[0]] + events[1..n];
    RunThreadAppend(t, base, [events[0]], events[1..n]);
    RunSingle(t, base, events[0]);
  }

  lemma {:induction false} JoinWalk(before: seq<Op>, symbol: Text, inner: seq<Op>)
    ensures before + [Push(symbol)] + inner + [Pop(symbol)] == before + ([Push(symbol)] + inner + [Pop(symbol)])
  {
  }

  lemma {:induction false} EdgeTraced(t: ThreadState, base: Word64, caller: Text, edge: Edge, events: seq<Event>)
    requires MakesAll(events, EdgeReports(caller, edge)) && TopIs(t, caller)
    ensures Traces(t, RunThread(t, base, events), EdgeWalk(edge))
    decreases edge, 1
  {
    hide Step, Trace;
    var reports := EdgeReports(caller, edge);
    var n := |events| - 1;
    assert Makes(events[0], reports[0]) && Makes(events[n], reports[n]);
    RunBracket(t, base, events);
    var a := Step(t, base, events[0]);
    match edge
    case CallEdge(callee) =>
      CallStep(t, base, events[0], caller, callee.symbol);
      InnerReports(events, reports, EdgesReports(callee.symbol, callee.edges));
      EdgesTraced(a, base, callee.symbol, callee.edges, events[1..n]);
      ReturnStep(RunThread(a, base, events[1..n]), base, events[n], t.callstack, events[0].data.branch.dst, caller);
      JoinWalk(Trace(t), callee.symbol, EdgesWalk(callee.edges));
    case ContextEdge(handler) =>
      EnterStep(t, base, events[0], handler.symbol);
      InnerReports(events, reports, EdgesReports(handler.symbol, handler.edges));
      EdgesTraced(a, base, handler.symbol, handler.edges, events[1..n]);
      LeaveStep(RunThread(a, base, events[1..n]), base, events[n], t.callstack, t.inactive, events[0].data.branch.dst,
        caller);
      JoinWalk(Trace(t), handler.symbol, EdgesWalk(handler.edges));
    case Gap =>
      assert events[1..n] == [];
      GapSteps(t, base, events[0], events[1], caller);
  }

  lemma {:induction false} InnerReports(events: seq<Event>, reports: seq<Report>, inner: seq<Report>)
    requires MakesAll(events, reports) && |reports| == |inner| + 2 && reports[1..|reports| - 1] == inner
    ensures MakesAll(events[1..|events| - 1], inner)
  {
    forall i | 0 <= i < |inner| ensures Makes(events[1..|events| - 1][i], inner[i]) {
      assert inner[i] == reports[i + 1];
    }
  }

  lemma {:induction false} EdgesTraced(t: ThreadState, base: Word64, caller: Text, edges: seq<Edge>, events: seq<Event>)
    requires MakesAll(events, EdgesReports(caller, edges)) && TopIs(t, caller)
    ensures Traces(t, RunThread(t, base, events), EdgesWalk(edges))
    decreases edges, 0
  {
    hide Step, Trace;
    if edges == [] {
      assert events == [];
      assert Trace(t) + [] == Trace(t);
    } else {
      var k := |EdgeReports(caller, edges[0])|;
      var reports := EdgesReports(caller, edges);
      assert reports[..k] == EdgeReports(caller, edges[0]) && reports[k..] == EdgesReports(caller, edges[1..]);
      assert MakesAll(events[..k], reports[..k]) && MakesAll(events[k..], reports[k..]);
      EdgeTraced(t, base, caller, edges[0], events[..k]);
      var m := RunThread(t, base, events[..k]);
      EdgesTraced(m, base, caller, edges[1..], events[k..]);
      assert events == events[..k] + events[k..];
      RunThreadAppend(t, base, events[..k], events[k..]);
      Join(Trace(t), EdgeWalk(edges[0]), EdgesWalk(edges[1..]));
    }
  }

  // ----- Main result ------------------------------------------------------------------------

  /** For every call tree, every base time and every times, addresses and threads of its events, the
      finished log of a fresh thread is the tree's walk: no frame is lost, added or split, at a gap
      or anywhere else. */
  lemma {:induction false} CallTreeFidelity(tree: Tree, base: Word64, events: seq<Event>)
    requires MakesAll(events, Reports(tree))
    ensures Ops(FinishThread(RunThread(FRESH_THREAD, base, events)).written) == Walk(tree)
  {
    hide Step, FinishThread, EdgesReports, EdgesWalk, Trace;
    var reports := Reports(tree);
    assert Makes(events[0], reports[0]);
    var t := Step(FRESH_THREAD, base, events[0]);
    RootStep(base, events[0], tree.symbol);
    assert reports[1..] == EdgesReports(tree.symbol, tree.edges);
    assert MakesAll(events[1..], reports[1..]);
    EdgesTraced(t, base, tree.symbol, tree.edges, events[1..]);
    assert events == [events[0]] + events[1..];
    RunThreadAppend(FRESH_THREAD, base, [events[0]], events[1..]);
    RunSingle(FRESH_THREAD, base, events[0]);
    FinishRoot(RunThread(t, base, events[1..]), events[0].data.branch.dst);
    assert [Push(tree.symbol)] + EdgesWalk(tree.edges) + [Pop(tree.symbol)] == Walk(tree);
  }

  lemma {:induction false} RootStep(base: Word64, e: Event, dst: Text)
    requires Makes(e, Started(dst))
    ensures Moves(FRESH_THREAD, Step(FRESH_THREAD, base, e), Callstack([e.data.branch.dst], 0), [], Push(dst))
    ensures Trace(FRESH_THREAD) == []
  {
    var time := MapTime(base, e.timeNs);
    CallTrace(FRESH_THREAD.(lastEventTime := time), 0, e.data.branch.dst, true);
  }

  lemma {:induction false} FinishRoot(t: ThreadState, root: Location)
    requires t.callstack.stack == [root] && t.inactive == []
    ensures Ops(FinishThread(t).written) == Trace(t) + [Pop(root.symbol)]
  {
    var last := t.lastEventTime;
    var f := Flush(t, last);
    FlushTrace(t, last);
    RetTrace(f, last);
    var c := PopFrame(f, last);
    assert ClearCallstack(f, last) == c by {
      assert PopFrames(c, last, 0) == c;
    }
    assert ClearAll(f, last) == c;
    FlushTrace(c, last);
    var d := FinishThread(t);
    assert d.pending == [];
    assert Trace(d) == Ops(d.written);
  }
}
