/** The reconstructor class itself: its threads' state and its symbol cache, updated in place. */
module StackReconstructor {
  import opened Texts
  import opened PerfEvent
  import TM = ThreadMachine
  import opened ThreadMachine
  import ShortenSymbol
  import opened Reader
  import WriterTables
  import EV = EventStream
  import opened EventStream
  import RC = Reconstruction
  import opened Reconstruction
  import FX = FxtWriter

  /** Per-thread state; `written` records what the thread has sent to the writer. */
  class ThreadInfo {
    var callstack: Callstack
    var inactiveCallstacks: seq<Callstack>
    var pendingEvents: seq<PendingEvent>
    var pendingTime: Word64
    var lastEventTime: Word64
    ghost var written: seq<Entry>

    ghost function State(): ThreadState
      reads this
    {
      ThreadState(callstack, inactiveCallstacks, pendingEvents, pendingTime, lastEventTime, written)
    }

    constructor ()
      ensures State() == FRESH_THREAD
    {
      callstack, inactiveCallstacks, pendingEvents := Callstack([], 0), [], [];
      pendingTime, lastEventTime, written := 0, 0, [];
    }
  }

  /** The stream went on with what the thread wrote. */
  ghost predicate Wrote(before: StreamState, after: StreamState, key: ThreadKey, log: seq<Entry>, log': seq<Entry>) {
    StreamInv(before) && log <= log' && after == EmitEntries(before, key, log'[|log|..])
  }

  lemma {:induction false} WroteTrans(a: StreamState, b: StreamState, c: StreamState, key: ThreadKey,
      x: seq<Entry>, y: seq<Entry>,
      z: seq<Entry>)
    requires Wrote(a, b, key, x, y) && Wrote(b, c, key, y, z)
    ensures Wrote(a, c, key, x, z)
  {
    hide StreamInv, EmitEntry;
    EmitEntriesAppend(a, key, y[|x|..], z[|y|..]);
    assert y[|x|..] + z[|y|..] == z[|x|..];
  }

  lemma {:induction false} WroteNothing(a: StreamState, key: ThreadKey, x: seq<Entry>)
    requires StreamInv(a)
    ensures Wrote(a, a, key, x, x)
  {
    assert x[|x|..] == [];
  }

  function SymbolOf(ev: PendingEvent): Text {
    match ev
    case PendingCall(loc, _) => loc.symbol
    case PendingRet(symbol) => symbol
    case PendingRetFromUntraced(_) => UNKNOWN
  }

  class StackReconstructor {
    const writer: FX.FxtWriter
    var baseTime: Word64
    var baseTimeSet: bool
    var threads: map<ThreadKey, ThreadInfo>
    var categoryId: Word16
    var symbolIdCache: map<Text, Word16>
    ghost var earlier: seq<TraceEvent>
    ghost var emitted: seq<Emission>

    ghost function Stream(): StreamState
      reads this, writer
    {
      StreamState(writer.State(), categoryId, symbolIdCache, earlier, emitted)
    }

    /** The writer can be written to. */
    ghost predicate Ready()
      reads this, writer, writer.sink
    {
      writer.Valid() && StreamInv(Stream())
    }

    ghost function State(): ReconState
      reads this, writer, threads.Values
    {
      ReconState(Stream(), if baseTimeSet then Some(baseTime) else None, map k | k in threads :: threads[k].State())
    }

    /** Threads do not share their state, and what each has written is its share of the stream. */
    ghost predicate Valid()
      reads this, writer, writer.sink, threads.Values
    {
      Ready() && ReconInv(State()) &&
      forall k, l :: k in threads && l in threads && k != l ==> threads[k] != threads[l]
    }

    constructor (writer: FX.FxtWriter)
      requires writer.Valid()
      modifies writer, writer.sink
      ensures Valid() && this.writer == writer
      ensures State().base == None && State().threads == map[] && threads == map[]
      ensures Stream().earlier == old(Read(writer.records).events) && Stream().emitted == [] && Stream().cache == map[]
      ensures (writer.State(), Stream().categoryId) == WriterTables.Intern(old(writer.State()), CATEGORY)
    {
      hide FX.FxtWriter.Valid, WriterTables.Inv, Read, WriterTables.Intern, WriterTables.Bindings;
      this.writer := writer;
      baseTime, baseTimeSet, threads, symbolIdCache, emitted := 0, false, map[], map[], [];
      earlier := Read(writer.records).events;
      ghost var before := writer.State();
      HoldsWriter(writer);
      var id := writer.InternString("trace");
      categoryId := id;
      new;
      WriterTables.InternRoomy(before, CATEGORY);
      FirstStream(Stream());
    }

    static lemma {:induction false} HoldsWriter(writer: FX.FxtWriter)
      requires writer.Valid()
      ensures WriterTables.Inv(writer.State())
    {
    }

    // ----- Writing pending events -----------------------------------------------------------------

    method InternSymbol(rawSymbol: Text) returns (id: Word16)
      requires Ready()
      modifies this`symbolIdCache, writer, writer.sink
      ensures Ready()
      ensures (Stream(), id) == EV.InternSymbol(old(Stream()), rawSymbol)
    {
      hide WriterTables.Inv, ShowsAll, Names, CacheOk, WriterTables.Intern;
      InternSymbolInv(Stream(), rawSymbol);
      if rawSymbol in symbolIdCache {
        return symbolIdCache[rawSymbol];
      }
      var shortened := ShortenSymbol.ShortenSymbol(rawSymbol);
      id := writer.InternString(shortened);
      symbolIdCache := symbolIdCache[rawSymbol := id];
    }

    method WritePending(pid: Word64, tid: Word64, time: Word64, ev: PendingEvent)
      requires Ready()
      modifies this`symbolIdCache, this`emitted, writer, writer.sink
      ensures Ready()
      ensures Stream() == EmitEntries(old(Stream()), ThreadKey(pid, tid), EntriesOf(ev, time))
    {
      hide StreamInv, WriterTables.Inv, EmitEntries, EmitEntry, WriterTables.EnsureThread, EV.InternSymbol,
        WriterTables.WriteEvent;
      ghost var key := ThreadKey(pid, tid);
      ghost var s0 := Stream();
      var nameId := InternSymbol(SymbolOf(ev));
      ghost var s1 := Stream();
      InternSymbolInv(s0, SymbolOf(ev));
      WithThreadInv(s1, key);
      var threadRef := writer.EnsureThread(pid, tid);
      ghost var s2 := Stream();
      assert s2 == WithThread(s1, key);
      match ev {
        case PendingCall(_, _) =>
          OneEntry(s0, key, Entry(Begin, SymbolOf(ev), time));
          writer.WriteEventById(2, threadRef, categoryId, nameId, time);
          emitted := emitted + [Emission(key, Entry(Begin, SymbolOf(ev), time))];
          assert Stream() == Write(s2, key, Entry(Begin, SymbolOf(ev), time), nameId);
        case PendingRet(_) =>
          OneEntry(s0, key, Entry(Close, SymbolOf(ev), time));
          writer.WriteEventById(3, threadRef, categoryId, nameId, time);
          emitted := emitted + [Emission(key, Entry(Close, SymbolOf(ev), time))];
          assert Stream() == Write(s2, key, Entry(Close, SymbolOf(ev), time), nameId);
        case PendingRetFromUntraced(resetTime) =>
          UntracedEntries(s0, key, resetTime, time);
          var unknownId := InternSymbol(UNKNOWN);
          writer.WriteEventById(2, threadRef, categoryId, unknownId, resetTime);
          emitted := emitted + [Emission(key, Entry(Begin, UNKNOWN, resetTime))];
          ghost var s3 := Stream();
          assert s3 == Write(s2, key, Entry(Begin, UNKNOWN, resetTime), unknownId);
          WriteKeepsThreads(s2, key, Entry(Begin, UNKNOWN, resetTime), unknownId);
          writer.WriteEventById(3, threadRef, categoryId, unknownId, time);
          emitted := emitted + [Emission(key, Entry(Close, UNKNOWN, time))];
          assert Stream() == Write(s3, key, Entry(Close, UNKNOWN, time), unknownId);
      }
    }

    // ----- Pending batch ------------------------------------------------------------------------

    /** Only calls consume time. */
    static method CountTimeConsumers(evs: seq<PendingEvent>) returns (timeConsumers: nat)
      ensures timeConsumers == CountCalls(evs)
    {
      timeConsumers := 0;
      CountAll(evs);
      for i := 0 to |evs|
        invariant timeConsumers + CountCalls(evs[i..]) == CountCalls(evs)
      {
        CountFirst(evs, i);
        if evs[i].PendingCall? {
          timeConsumers := timeConsumers + 1;
        }
      }
    }

    /** Writes out a batch, sharing the time between its calls. */
    method WriteBatch(pid: Word64, tid: Word64, evs: seq<PendingEvent>, pendingTime: Word64, totalNs: nat)
      requires Ready() && pendingTime + totalNs < TWO_64
      modifies this`symbolIdCache, this`emitted, writer, writer.sink
      ensures Ready() && StreamInv(old(Stream()))
      ensures Stream() == EmitEntries(old(Stream()), ThreadKey(pid, tid), Spread(evs, pendingTime, totalNs))
    {
      hide Ready, StreamInv, EmitEntries, EntriesOf, Spread, Share, CountCalls;
      ghost var key := ThreadKey(pid, tid);
      ghost var s0 := Stream();
      ReadyStream();
      EmitNothing(s0, key);
      var timeConsumers := CountTimeConsumers(evs);
      CountAll(evs);
      var nsOffset, sharesConsumed := 0, 0;
      ghost var out := [];
      SpreadFrom(evs, pendingTime, totalNs);
      for i := 0 to |evs|
        invariant Ready()
        invariant 0 <= nsOffset <= totalNs && 0 <= sharesConsumed
        invariant sharesConsumed + CountCalls(evs[i..]) == timeConsumers
        invariant out + Spread(evs[i..], pendingTime + nsOffset, totalNs - nsOffset) ==
                  Spread(evs, pendingTime, totalNs)
        invariant Stream() == EmitEntries(s0, key, out)
      {
        var ev := evs[i];
        CountFirst(evs, i);
        var nsShare := 0;
        if ev.PendingCall? {
          sharesConsumed := sharesConsumed + 1;
          var remaining := timeConsumers - sharesConsumed + 1;
          nsShare := if remaining > 0 then Quotient(totalNs - nsOffset, remaining) else 0;
        }
        var eventTime := pendingTime + nsOffset;
        SpreadFirst(evs, i, eventTime, totalNs - nsOffset, nsShare);
        ghost var rest := Spread(evs[i + 1..], eventTime + nsShare, totalNs - nsOffset - nsShare);
        assert out + EntriesOf(ev, eventTime) + rest == Spread(evs, pendingTime, totalNs) by {
          assert out + EntriesOf(ev, eventTime) + rest == out + (EntriesOf(ev, eventTime) + rest);
        }
        WritePending(pid, tid, eventTime, ev);
        EmitEntriesAppend(s0, key, out, EntriesOf(ev, eventTime));
        out := out + EntriesOf(ev, eventTime);
        nsOffset := nsOffset + nsShare;
      }
      SpreadNone(evs, pendingTime + nsOffset, totalNs - nsOffset);
      assert out == Spread(evs, pendingTime, totalNs);
    }

    method Flush(ti: ThreadInfo, pid: Word64, tid: Word64, toTime: Word64)
      requires Ready()
      modifies ti, this`symbolIdCache, this`emitted, writer, writer.sink
      ensures Ready()
      ensures ti.State() == TM.Flush(old(ti.State()), toTime)
      ensures Wrote(old(Stream()), Stream(), ThreadKey(pid, tid), old(ti.written), ti.written)
    {
      hide Ready, StreamInv, EmitEntries, Spread;
      ReadyStream();
      WroteNothing(Stream(), ThreadKey(pid, tid), ti.written);
      if ti.pendingEvents == [] {
        return;
      }
      var totalNs := if toTime > ti.pendingTime then toTime - ti.pendingTime else 0;
      WriteBatch(pid, tid, ti.pendingEvents, ti.pendingTime, totalNs);
      ti.written := ti.written + Spread(ti.pendingEvents, ti.pendingTime, totalNs);
      ti.pendingTime := toTime;
      ti.pendingEvents := [];
      assert ti.written[|old(ti.written)|..] == Spread(old(ti.pendingEvents), old(ti.pendingTime), totalNs);
    }

    method AddEvent(ti: ThreadInfo, pid: Word64, tid: Word64, time: Word64, ev: PendingEvent)
      requires Ready()
      modifies ti, this`symbolIdCache, this`emitted, writer, writer.sink
      ensures Ready()
      ensures ti.State() == TM.AddEvent(old(ti.State()), time, ev)
      ensures Wrote(old(Stream()), Stream(), ThreadKey(pid, tid), old(ti.written), ti.written)
    {
      hide StreamInv, EmitEntries, Spread;
      WroteNothing(Stream(), ThreadKey(pid, tid), ti.written);
      if time != ti.pendingTime && ti.pendingEvents != [] {
        Flush(ti, pid, tid, time);
      }
      ti.pendingTime := time;
      ti.pendingEvents := ti.pendingEvents + [ev];
    }

    // ----- Stack operations ---------------------------------------------------------------------

    method Call(ti: ThreadInfo, pid: Word64, tid: Word64, time: Word64, loc: Location, fromUntraced: bool)
      requires Ready()
      modifies ti, this`symbolIdCache, this`emitted, writer, writer.sink
      ensures Ready()
      ensures ti.State() == PushFrame(old(ti.State()), time, loc, fromUntraced)
      ensures Wrote(old(Stream()), Stream(), ThreadKey(pid, tid), old(ti.written), ti.written)
    {
      hide StreamInv, Wrote, Spread;
      AddEvent(ti, pid, tid, time, PendingCall(loc, fromUntraced));
      ti.callstack := ti.callstack.(stack := ti.callstack.stack + [loc]);
    }

    method Ret(ti: ThreadInfo, pid: Word64, tid: Word64, time: Word64)
      requires Ready()
      modifies ti, this`symbolIdCache, this`emitted, writer, writer.sink
      ensures Ready()
      ensures ti.State() == PopFrame(old(ti.State()), time)
      ensures Wrote(old(Stream()), Stream(), ThreadKey(pid, tid), old(ti.written), ti.written)
    {
      hide StreamInv, Wrote, TM.Flush;
      var stack := ti.callstack.stack;
      if stack != [] {
        AddEvent(ti, pid, tid, time, PendingRet(stack[|stack| - 1].symbol));
        ti.callstack := ti.callstack.(stack := stack[..|stack| - 1]);
      } else {
        AddEvent(ti, pid, tid, time, PendingRetFromUntraced(ti.callstack.createTime));
      }
    }

    method CheckCurrentSymbol(ti: ThreadInfo, pid: Word64, tid: Word64, time: Word64, loc: Location)
      requires Ready()
      modifies ti, this`symbolIdCache, this`emitted, writer, writer.sink
      ensures Ready()
      ensures ti.State() == TM.CheckCurrentSymbol(old(ti.State()), time, loc)
      ensures Wrote(old(Stream()), Stream(), ThreadKey(pid, tid), old(ti.written), ti.written)
    {
      hide Ready, Wrote, StreamInv, PushFrame, PopFrame;
      ghost var s0, l0 := Stream(), ti.written;
      if ti.callstack.stack == [] {
        Call(ti, pid, tid, ti.callstack.createTime, loc, true);
        return;
      }
      var stack := ti.callstack.stack;
      if stack[|stack| - 1].symbol != loc.symbol {
        Ret(ti, pid, tid, time);
        ghost var s1, l1 := Stream(), ti.written;
        Call(ti, pid, tid, time, loc, false);
        WroteTrans(s0, s1, Stream(), ThreadKey(pid, tid), l0, l1, ti.written);
      } else {
        WroteNothing(s0, ThreadKey(pid, tid), l0) by { ReadyStream(); }
      }
    }

    lemma {:induction false} ReadyStream()
      requires Ready()
      ensures StreamInv(Stream())
    {
    }

    lemma {:induction false} ReadyWriter()
      requires Ready()
      ensures writer.Valid()
    {
    }

    method ClearCallstack(ti: ThreadInfo, pid: Word64, tid: Word64, time: Word64)
      requires Ready()
      modifies ti, this`symbolIdCache, this`emitted, writer, writer.sink
      ensures Ready()
      ensures ti.State() == TM.ClearCallstack(old(ti.State()), time)
      ensures Wrote(old(Stream()), Stream(), ThreadKey(pid, tid), old(ti.written), ti.written)
      ensures ti.callstack.stack == []
    {
      hide Ready, Wrote, StreamInv, PopFrame;
      ghost var s0, l0 := Stream(), ti.written;
      WroteNothing(s0, ThreadKey(pid, tid), l0) by { ReadyStream(); }
      while ti.callstack.stack != []
        invariant Ready() && Wrote(s0, Stream(), ThreadKey(pid, tid), l0, ti.written)
        invariant PopFrames(ti.State(), time, |ti.callstack.stack|) == TM.ClearCallstack(old(ti.State()), time)
        decreases |ti.callstack.stack|
      {
        ghost var s1, l1, t1 := Stream(), ti.written, ti.State();
        Ret(ti, pid, tid, time);
        PopOne(t1, time, |t1.callstack.stack|);
        WroteTrans(s0, s1, Stream(), ThreadKey(pid, tid), l0, l1, ti.written);
      }
    }

    method ClearAllCallstacks(ti: ThreadInfo, pid: Word64, tid: Word64, time: Word64)
      requires Ready()
      modifies ti, this`symbolIdCache, this`emitted, writer, writer.sink
      ensures Ready()
      ensures ti.State() == ClearAll(old(ti.State()), time)
      ensures Wrote(old(Stream()), Stream(), ThreadKey(pid, tid), old(ti.written), ti.written)
    {
      hide Ready, Wrote, StreamInv, TM.ClearCallstack;
      ghost var s0, l0 := Stream(), ti.written;
      ClearCallstack(ti, pid, tid, time);
      while ti.inactiveCallstacks != []
        invariant Ready() && Wrote(s0, Stream(), ThreadKey(pid, tid), l0, ti.written)
        invariant (if ti.inactiveCallstacks == [] then ti.State() else ClearAll(Resume(ti.State()), time)) ==
                  ClearAll(old(ti.State()), time)
        decreases |ti.inactiveCallstacks|
      {
        ghost var s1, l1 := Stream(), ti.written;
        var n := |ti.inactiveCallstacks| - 1;
        ti.callstack := ti.inactiveCallstacks[n];
        ti.inactiveCallstacks := ti.inactiveCallstacks[..n];
        ghost var t1 := ti.State();
        ClearCallstack(ti, pid, tid, time);
        ClearKeepsInactive(t1, time);
        WroteTrans(s0, s1, Stream(), ThreadKey(pid, tid), l0, l1, ti.written);
      }
    }

    // ----- Branches -----------------------------------------------------------------------------

    /** A trace start takes the marker off and continues at its target. */
    method StartTrace(ti: ThreadInfo, pid: Word64, tid: Word64, time: Word64, dst: Location)
      requires Ready()
      modifies ti, this`symbolIdCache, this`emitted, writer, writer.sink
      ensures Ready()
      ensures ti.State() == TM.StartTrace(old(ti.State()), time, dst)
      ensures Wrote(old(Stream()), Stream(), ThreadKey(pid, tid), old(ti.written), ti.written)
    {
      hide Ready, Wrote, StreamInv, PopFrame, TM.CheckCurrentSymbol;
      ghost var s0, l0, t0 := Stream(), ti.written, ti.State();
      WroteNothing(s0, ThreadKey(pid, tid), l0) by { ReadyStream(); }
      var stack := ti.callstack.stack;
      if stack != [] && stack[|stack| - 1].symbol == "[untraced]" {
        Ret(ti, pid, tid, time);
      }
      assert ti.State() == if TopIs(t0, UNTRACED) then PopFrame(t0, time) else t0;
      ghost var s1, l1 := Stream(), ti.written;
      CheckCurrentSymbol(ti, pid, tid, time, dst);
      WroteTrans(s0, s1, Stream(), ThreadKey(pid, tid), l0, l1, ti.written);
    }

    /** Clears the current context and goes back to the one suspended last. */
    method LeaveContext(ti: ThreadInfo, pid: Word64, tid: Word64, time: Word64, dst: Location)
      requires Ready()
      modifies ti, this`symbolIdCache, this`emitted, writer, writer.sink
      ensures Ready()
      ensures ti.State() == TM.LeaveContext(old(ti.State()), time, dst)
      ensures Wrote(old(Stream()), Stream(), ThreadKey(pid, tid), old(ti.written), ti.written)
    {
      hide Ready, Wrote, StreamInv, TM.ClearCallstack, TM.CheckCurrentSymbol;
      ghost var s0, l0 := Stream(), ti.written;
      ClearCallstack(ti, pid, tid, time);
      if ti.inactiveCallstacks != [] {
        var n := |ti.inactiveCallstacks| - 1;
        ti.callstack := ti.inactiveCallstacks[n];
        ti.inactiveCallstacks := ti.inactiveCallstacks[..n];
        ghost var s1, l1 := Stream(), ti.written;
        CheckCurrentSymbol(ti, pid, tid, time, dst);
        WroteTrans(s0, s1, Stream(), ThreadKey(pid, tid), l0, l1, ti.written);
      } else {
        ti.callstack := ti.callstack.(createTime := time);
      }
    }

    method TakeBranch(ti: ThreadInfo, pid: Word64, tid: Word64, time: Word64, kind: BranchKind, src: Location,
        dst: Location)
      requires Ready()
      modifies ti, this`symbolIdCache, this`emitted, writer, writer.sink
      ensures Ready()
      ensures ti.State() == TM.TakeBranch(old(ti.State()), time, kind, src, dst)
      ensures Wrote(old(Stream()), Stream(), ThreadKey(pid, tid), old(ti.written), ti.written)
    {
      hide Ready, Wrote, StreamInv, PopFrame, PushFrame, TM.CheckCurrentSymbol, TM.LeaveContext;
      ghost var s0, l0 := Stream(), ti.written;
      match kind {
        case Call =>
          CheckCurrentSymbol(ti, pid, tid, time, src);
          ghost var s1, l1 := Stream(), ti.written;
          Call(ti, pid, tid, time, dst, false);
          WroteTrans(s0, s1, Stream(), ThreadKey(pid, tid), l0, l1, ti.written);
        case Return =>
          Ret(ti, pid, tid, time);
          ghost var s1, l1 := Stream(), ti.written;
          CheckCurrentSymbol(ti, pid, tid, time, dst);
          WroteTrans(s0, s1, Stream(), ThreadKey(pid, tid), l0, l1, ti.written);
        case Syscall =>
          EnterContext(ti, pid, tid, time, dst);
        case HardwareInterrupt =>
          EnterContext(ti, pid, tid, time, dst);
        case Iret =>
          LeaveContext(ti, pid, tid, time, dst);
        case Sysret =>
          LeaveContext(ti, pid, tid, time, dst);
        case _ =>
          CheckCurrentSymbol(ti, pid, tid, time, dst);
      }
    }

    /** Suspends the current stack and starts a new one. */
    method EnterContext(ti: ThreadInfo, pid: Word64, tid: Word64, time: Word64, dst: Location)
      requires Ready()
      modifies ti, this`symbolIdCache, this`emitted, writer, writer.sink
      ensures Ready()
      ensures ti.State() == PushFrame(Suspend(old(ti.State()), time), time, dst)
      ensures Wrote(old(Stream()), Stream(), ThreadKey(pid, tid), old(ti.written), ti.written)
    {
      hide Ready, Wrote, StreamInv, PushFrame;
      ti.inactiveCallstacks := ti.inactiveCallstacks + [ti.callstack];
      ti.callstack := Callstack([], time);
      assert ti.State() == Suspend(old(ti.State()), time);
      Call(ti, pid, tid, time, dst, false);
    }

    method ProcessBranch(ti: ThreadInfo, pid: Word64, tid: Word64, time: Word64, br: BranchData)
      requires Ready()
      modifies ti, this`symbolIdCache, this`emitted, writer, writer.sink
      ensures Ready()
      ensures ti.State() == TM.ProcessBranch(old(ti.State()), time, br)
      ensures Wrote(old(Stream()), Stream(), ThreadKey(pid, tid), old(ti.written), ti.written)
    {
      hide Ready, Wrote, StreamInv, PushFrame, TM.StartTrace, TM.TakeBranch;
      ghost var s0, l0 := Stream(), ti.written;
      WroteNothing(s0, ThreadKey(pid, tid), l0) by { ReadyStream(); }
      if br.traceState == End {
        Call(ti, pid, tid, time, Location(0, "[untraced]", 0), false);
        return;
      }
      if br.traceState == Start {
        StartTrace(ti, pid, tid, time, br.dst);
        if br.kind.None? {
          return;
        }
      }
      if br.kind.None? {
        return;
      }
      ghost var s1, l1 := Stream(), ti.written;
      TakeBranch(ti, pid, tid, time, br.kind.value, br.src, br.dst);
      WroteTrans(s0, s1, Stream(), ThreadKey(pid, tid), l0, l1, ti.written);
    }

    // ----- Samples ------------------------------------------------------------------------------

    /** How many frames agree from the bottom up. */
    static method CountMatches(current: seq<Location>, sample: seq<Location>) returns (matchCount: nat)
      ensures matchCount == MatchCount(current, sample)
    {
      var minSize := Min(|current|, |sample|);
      matchCount := 0;
      assert current[0..] == current && sample[0..] == sample;
      while matchCount < minSize && current[matchCount].symbol == sample[matchCount].symbol
        invariant matchCount <= minSize
        invariant matchCount + MatchCount(current[matchCount..], sample[matchCount..]) == MatchCount(current, sample)
      {
        assert current[matchCount..][1..] == current[matchCount + 1..];
        assert sample[matchCount..][1..] == sample[matchCount + 1..];
        matchCount := matchCount + 1;
      }
    }

    /** Pops excess frames until `height` are left. */
    method PopTo(ti: ThreadInfo, pid: Word64, tid: Word64, time: Word64, height: nat)
      requires Ready() && height <= |ti.callstack.stack|
      modifies ti, this`symbolIdCache, this`emitted, writer, writer.sink
      ensures Ready()
      ensures ti.State() == PopFrames(old(ti.State()), time, |old(ti.callstack.stack)| - height)
      ensures Wrote(old(Stream()), Stream(), ThreadKey(pid, tid), old(ti.written), ti.written)
    {
      hide Ready, Wrote, StreamInv, PopFrame;
      ghost var s0, l0 := Stream(), ti.written;
      WroteNothing(s0, ThreadKey(pid, tid), l0) by { ReadyStream(); }
      ghost var popped := PopFrames(ti.State(), time, |ti.callstack.stack| - height);
      while |ti.callstack.stack| > height
        invariant Ready() && Wrote(s0, Stream(), ThreadKey(pid, tid), l0, ti.written)
        invariant height <= |ti.callstack.stack|
        invariant PopFrames(ti.State(), time, |ti.callstack.stack| - height) == popped
        decreases |ti.callstack.stack|
      {
        ghost var s1, l1, t1 := Stream(), ti.written, ti.State();
        Ret(ti, pid, tid, time);
        PopOne(t1, time, |t1.callstack.stack| - height);
        WroteTrans(s0, s1, Stream(), ThreadKey(pid, tid), l0, l1, ti.written);
      }
    }

    method ProcessStacktrace(ti: ThreadInfo, pid: Word64, tid: Word64, time: Word64, sample: seq<Location>)
      requires Ready()
      modifies ti, this`symbolIdCache, this`emitted, writer, writer.sink
      ensures Ready()
      ensures ti.State() == ProcessSample(old(ti.State()), time, sample)
      ensures Wrote(old(Stream()), Stream(), ThreadKey(pid, tid), old(ti.written), ti.written)
    {
      hide Ready, Wrote, StreamInv, PopFrames, PushFrame, MatchCount;
      ghost var s0, l0 := Stream(), ti.written;
      var matchCount := CountMatches(ti.callstack.stack, sample);
      PopTo(ti, pid, tid, time, matchCount);
      ghost var popped := ti.State();
      assert sample[matchCount..matchCount] == [];
      for i := matchCount to |sample|
        invariant Ready() && Wrote(s0, Stream(), ThreadKey(pid, tid), l0, ti.written)
        invariant ti.State() == PushFrames(popped, time, sample[matchCount..i])
      {
        ghost var s1, l1 := Stream(), ti.written;
        assert sample[matchCount..i + 1][..i - matchCount] == sample[matchCount..i];
        Call(ti, pid, tid, time, sample[i], false);
        WroteTrans(s0, s1, Stream(), ThreadKey(pid, tid), l0, l1, ti.written);
      }
      assert sample[matchCount..|sample|] == sample[matchCount..];
    }

    // ----- Events -------------------------------------------------------------------------------

    /** The first time seen becomes the base; the subtraction is on unsigned 64-bit words. */
    method MapTime(timeNs: Word64) returns (time: Word64)
      modifies this`baseTime, this`baseTimeSet
      ensures baseTimeSet && baseTime == (if old(baseTimeSet) then old(baseTime) else timeNs)
      ensures time == TM.MapTime(baseTime, timeNs)
    {
      if !baseTimeSet {
        baseTime := timeNs;
        baseTimeSet := true;
      }
      time := (timeNs - baseTime) % TWO_64;
    }

    /** No two threads share their state. */
    ghost predicate Separate()
      reads this`threads
    {
      forall k, l :: k in threads && l in threads && k != l ==> threads[k] != threads[l]
    }

    method GetThread(pid: Word64, tid: Word64) returns (ti: ThreadInfo)
      requires Separate()
      modifies this`threads
      ensures Separate()
      ensures ThreadKey(pid, tid) in threads && ti == threads[ThreadKey(pid, tid)]
      ensures threads == old(threads)[ThreadKey(pid, tid) := ti]
      ensures if ThreadKey(pid, tid) in old(threads) then ti == old(threads)[ThreadKey(pid, tid)]
              else fresh(ti) && ti.State() == FRESH_THREAD
    {
      var key := ThreadKey(pid, tid);
      if key !in threads {
        ti := new ThreadInfo();
        threads := threads[key := ti];
      }
      ti := threads[key];
    }

    /** What an event does to its thread, once the time is mapped. */
    method Dispatch(ti: ThreadInfo, time: Word64, event: Event)
      requires Ready() && event.Relevant()
      modifies ti, this`symbolIdCache, this`emitted, writer, writer.sink
      ensures Ready()
      ensures ti.State() == StepAt(old(ti.State()), time, event)
      ensures Wrote(old(Stream()), Stream(), event.Key(), old(ti.written), ti.written)
    {
      hide Ready, Wrote, StreamInv, TM.ProcessBranch, ProcessSample, ClearAll;
      ti.lastEventTime := time;
      assert ti.State() == old(ti.State()).(lastEventTime := time);
      match event {
        case Ok(pid, tid, _, Branch(br)) => ProcessBranch(ti, pid, tid, time, br);
        case Ok(pid, tid, _, StacktraceSample(sample)) => ProcessStacktrace(ti, pid, tid, time, sample);
        case DecodeError(pid, tid, _, _, _) => ClearAllCallstacks(ti, pid, tid, time);
      }
    }

    /** The event's thread and mapped time. */
    method Locate(event: Event) returns (time: Word64, ti: ThreadInfo)
      requires Ready() && Separate() && event.Relevant()
      modifies this`baseTime, this`baseTimeSet, this`threads
      ensures Ready() && Separate() && Stream() == old(Stream())
      ensures baseTimeSet && baseTime == (if old(baseTimeSet) then old(baseTime) else event.Time())
      ensures time == TM.MapTime(baseTime, event.Time())
      ensures event.Key() in threads && threads == old(threads)[event.Key() := ti]
      ensures event.Key() in old(threads) ==> ti == old(threads)[event.Key()]
      ensures event.Key() !in old(threads) ==> fresh(ti)
      ensures ti.State() == ThreadOf(old(State()), event.Key())
    {
      hide Ready, StreamInv, Separate, FX.FxtWriter.Valid, WriterTables.Inv;
      ghost var st := Stream();
      ReadyStream();
      ReadyWriter();
      time := MapTime(event.Time());
      ti := GetThread(event.pid, event.tid);
      StillReady(st);
    }

    /** Moves the event's thread on; `before` is the state until then. */
    method ProcessRelevant(event: Event) returns (ghost before: ReconState)
      requires Ready() && Separate() && event.Relevant()
      modifies this, writer, writer.sink, threads.Values
      ensures Ready() && Separate() && fresh(threads.Values - old(threads.Values))
      ensures baseTimeSet && baseTime == (if old(baseTimeSet) then old(baseTime) else event.Time())
      ensures before == old(State())
      ensures var t := ThreadOf(before, event.Key());
              var u := Step(t, baseTime, event);
              Wrote(before.stream, Stream(), event.Key(), t.written, u.written) &&
              State().threads == before.threads[event.Key() := u]
    {
      hide Ready, StreamInv, Step, StepAt, Wrote, TM.MapTime, FX.FxtWriter.Valid, WriterTables.Inv;
      before := State();
      var time, ti := Locate(event);
      StepOfRelevant(ti.State(), baseTime, event);
      Dispatch(ti, time, event);
      forall k | k in threads && k != event.Key() ensures threads[k].State() == before.threads[k] {
        assert threads[k] != ti;
      }
      OneMoved(State().threads, before.threads, event.Key(), ti.State());
    }

    static lemma {:induction false} StepOfRelevant(t: ThreadState, base: Word64, e: Event)
      requires e.Relevant()
      ensures Step(t, base, e) == StepAt(t, TM.MapTime(base, e.Time()), e)
    {
    }

    static lemma {:induction false} OneMoved(after: map<ThreadKey, ThreadState>, before: map<ThreadKey, ThreadState>,
        key: ThreadKey, t: ThreadState)
      requires after.Keys == before.Keys + {key} && after[key] == t
      requires forall k :: k in before && k != key ==> after[k] == before[k]
      ensures after == before[key := t]
    {
    }

    method ProcessEvent(event: Event)
      requires Valid()
      modifies this, writer, writer.sink, threads.Values
      ensures Valid() && fresh(threads.Values - old(threads.Values))
      ensures State() == RC.ProcessEvent(old(State()), event)
    {
      hide Ready, StreamInv, ReconInv, Step, EmitEntries, Wrote, Separate;
      if !event.Relevant() {
        // Power and counter samples do not affect call stacks, nor do decode errors without a time.
        return;
      }
      ValidParts();
      RC.ProcessEventInv(State(), event);
      ghost var r0 := ProcessRelevant(event);
      ghost var t := ThreadOf(r0, event.Key());
      WroteDelta(r0.stream, Stream(), event.Key(), t, Step(t, baseTime, event));
      assert State() == RC.ProcessEvent(r0, event);
      BackToValid();
    }

    lemma {:induction false} BackToValid()
      requires Ready() && ReconInv(State()) && Separate()
      ensures Valid()
    {
    }

    // ----- The end ------------------------------------------------------------------------------

    /** Closes everything a thread has left open. */
    method FinishOne(ti: ThreadInfo, pid: Word64, tid: Word64)
      requires Ready()
      modifies ti, this`symbolIdCache, this`emitted, writer, writer.sink
      ensures Ready()
      ensures ti.State() == FinishThread(old(ti.State()))
      ensures Wrote(old(Stream()), Stream(), ThreadKey(pid, tid), old(ti.written), ti.written)
    {
      hide Ready, Wrote, StreamInv, TM.Flush, ClearAll;
      ghost var key := ThreadKey(pid, tid);
      ghost var s0, l0, t0 := Stream(), ti.written, ti.State();
      Flush(ti, pid, tid, ti.lastEventTime);
      FlushLast(t0, t0.lastEventTime);
      ghost var s1, l1, t1 := Stream(), ti.written, ti.State();
      ClearAllCallstacks(ti, pid, tid, ti.lastEventTime);
      ClearAllLast(t1, t0.lastEventTime);
      WroteTrans(s0, s1, Stream(), key, l0, l1, ti.written);
      ghost var s2, l2 := Stream(), ti.written;
      Flush(ti, pid, tid, ti.lastEventTime);
      WroteTrans(s0, s2, Stream(), key, l0, l2, ti.written);
    }

    method FinishNext(key: ThreadKey)
      requires Ready() && Separate() && key in threads
      modifies this`symbolIdCache, this`emitted, writer, writer.sink, threads.Values
      ensures Ready() && Separate()
      ensures StreamInv(old(State()).stream)
      ensures State() == MoveThread(old(State()), key, FinishThread(ThreadOf(old(State()), key)))
    {
      hide Ready, StreamInv, FinishThread, EmitEntries, Wrote, FX.FxtWriter.Valid, WriterTables.Inv;
      ghost var r0 := State();
      ReadyStream();
      var ti := threads[key];
      FinishOne(ti, key.pid, key.tid);
      ghost var u := ti.State();
      WroteDelta(r0.stream, Stream(), key, ThreadOf(r0, key), u);
      forall k | k in threads && k != key ensures k in r0.threads && threads[k].State() == r0.threads[k] {
        assert threads[k] != ti;
      }
      assert State().threads == r0.threads[key := u];
    }

    /** Visits the threads in whatever order the table yields them; `order` tells which it was. */
    method Finish() returns (ghost order: seq<ThreadKey>)
      requires Valid()
      modifies this`symbolIdCache, this`emitted, writer, writer.sink, threads.Values
      ensures Valid() && Visits(order, threads.Keys)
      ensures State() == FinishAll(old(State()), order)
    {
      hide Ready, StreamInv, FinishThread, ReconInv, MoveThread, FX.FxtWriter.Valid, WriterTables.Inv;
      ValidParts();
      ghost var r0 := State();
      order := [];
      var keys := threads.Keys;
      while keys != {}
        invariant Ready() && Separate() && keys <= threads.Keys
        invariant forall k :: k in order <==> k in threads.Keys - keys
        invariant Distinct(order)
        invariant State() == FinishAll(r0, order)
        decreases keys
      {
        var key :| key in keys;
        FinishNext(key);
        ghost var next := order + [key];
        assert next[..|next| - 1] == order;
        StillDistinct(order, key);
        order := next;
        keys := keys - {key};
      }
      FinishAllInv(r0, order);
      BackToValid();
    }

    lemma {:induction false} ValidParts()
      requires Valid()
      ensures Ready() && StreamInv(Stream()) && ReconInv(State()) && Separate()
    {
    }

    lemma {:induction false} StillReady(st: StreamState)
      requires writer.Valid() && StreamInv(st) && Stream() == st
      ensures Ready()
    {
    }
  }

  lemma {:induction false} StillDistinct(order: seq<ThreadKey>, key: ThreadKey)
    requires Distinct(order) && key !in order
    ensures Distinct(order + [key])
  {
  }

  lemma {:induction false} FlushLast(t: ThreadState, to: Word64)
    ensures TM.Flush(t, to).lastEventTime == t.lastEventTime
  {
  }

  lemma {:induction false} FinishAllInv(r: ReconState, order: seq<ThreadKey>)
    requires ReconInv(r)
    requires Distinct(order)
    ensures ReconInv(FinishAll(r, order))
  {
    FinishThreadsInv(r, order, ThreadKey(0, 0));
  }

  lemma {:induction false} WroteDelta(before: StreamState, after: StreamState, key: ThreadKey, t: ThreadState,
      u: ThreadState)
    requires Wrote(before, after, key, t.written, u.written)
    ensures StreamInv(before) && after == EmitEntries(before, key, Delta(t, u))
  {
  }

  lemma {:induction false} PopOne(t: ThreadState, time: Word64, n: nat)
    requires t.callstack.stack != [] && n > 0
    ensures |PopFrame(t, time).callstack.stack| == |t.callstack.stack| - 1
    ensures PopFrames(PopFrame(t, time), time, n - 1) == PopFrames(t, time, n)
  {
  }

  lemma {:induction false} EmitNothing(st: StreamState, key: ThreadKey)
    requires StreamInv(st)
    ensures EmitEntries(st, key, []) == st
  {
  }

  lemma {:induction false} ClearKeepsInactive(t: ThreadState, time: Word64)
    ensures TM.ClearCallstack(t, time).inactive == t.inactive
  {
    PopFramesKeep(t, time, |t.callstack.stack|);
  }

  lemma {:induction false} CountFirst(evs: seq<PendingEvent>, i: nat)
    requires i < |evs|
    ensures CountCalls(evs[i..]) == (if evs[i].PendingCall? then 1 else 0) + CountCalls(evs[i + 1..])
  {
    assert evs[i..][1..] == evs[i + 1..];
  }

  lemma {:induction false} CountAll(evs: seq<PendingEvent>)
    ensures CountCalls(evs[|evs|..]) == 0 && evs[0..] == evs
  {
  }

  lemma {:induction false} SpreadFirst(evs: seq<PendingEvent>, i: nat, at: Word64, left: nat, share: nat)
    requires i < |evs| && at + left < TWO_64
    requires evs[i].PendingCall? ==> CountCalls(evs[i..]) > 0 && share == Quotient(left, CountCalls(evs[i..]))
    requires !evs[i].PendingCall? ==> share == 0
    ensures share <= left
    ensures Spread(evs[i..], at, left) == EntriesOf(evs[i], at) + Spread(evs[i + 1..], at + share, left - share)
  {
    assert evs[i..][1..] == evs[i + 1..];
  }

  lemma {:induction false} SpreadFrom(evs: seq<PendingEvent>, at: Word64, left: nat)
    requires at + left < TWO_64
    ensures [] + Spread(evs[0..], at + 0, left - 0) == Spread(evs, at, left)
  {
    assert evs[0..] == evs;
  }

  lemma {:induction false} SpreadNone(evs: seq<PendingEvent>, at: Word64, left: nat)
    requires at + left < TWO_64
    ensures Spread(evs[|evs|..], at, left) == []
  {
  }

  lemma {:induction false} WriteKeepsThreads(st: StreamState, key: ThreadKey, e: Entry, nameRef: Word16)
    requires key in st.writer.threads
    ensures Write(st, key, e, nameRef).writer.threads == st.writer.threads
  {
  }

  lemma {:induction false} OneEntry(st: StreamState, key: ThreadKey, e: Entry)
    requires StreamInv(st)
    ensures StreamInv(EV.InternSymbol(st, e.symbol).0)
    ensures var (a, id) := EV.InternSymbol(st, e.symbol);
            var b := WithThread(a, key);
            key in b.writer.threads && StreamInv(Write(b, key, e, id)) &&
            EmitEntries(st, key, [e]) == Write(b, key, e, id)
  {
    hide StreamInv, EV.InternSymbol;
    InternSymbolInv(st, e.symbol);
    var (a, id) := EV.InternSymbol(st, e.symbol);
    WithThreadInv(a, key);
    WriteInv(WithThread(a, key), key, e, id);
    assert [e][..0] == [];
    assert EmitEntries(st, key, [e]) == EmitEntry(EmitEntries(st, key, []), key, e);
  }

  /** The end of an untraced span finds its symbol and its thread as the begin left them. */
  lemma {:induction false} UntracedEntries(st: StreamState, key: ThreadKey, reset: Word64, time: Word64)
    requires StreamInv(st)
    ensures StreamInv(EV.InternSymbol(st, UNKNOWN).0)
    ensures var (a, id) := EV.InternSymbol(st, UNKNOWN);
            var b := WithThread(a, key);
            StreamInv(b) && key in b.writer.threads && EV.InternSymbol(b, UNKNOWN) == (b, id) &&
            var c := Write(b, key, Entry(Begin, UNKNOWN, reset), id);
            var d := Write(c, key, Entry(Close, UNKNOWN, time), id);
            StreamInv(d) && EmitEntries(st, key, EntriesOf(PendingRetFromUntraced(reset), time)) == d
  {
    hide StreamInv, WriterTables.Inv;
    InternSymbolInv(st, UNKNOWN);
    var (a, id) := EV.InternSymbol(st, UNKNOWN);
    WithThreadInv(a, key);
    var b := WithThread(a, key);
    var x, y := Entry(Begin, UNKNOWN, reset), Entry(Close, UNKNOWN, time);
    OneEntry(st, key, x);
    var c := Write(b, key, x, id);
    assert EntriesOf(PendingRetFromUntraced(reset), time) == [x] + [y];
    EmitEntriesAppend(st, key, [x], [y]);
    assert a.cache == b.cache == c.cache;
    assert EV.InternSymbol(c, UNKNOWN) == (c, id);
    assert WithThread(c, key) == c;
    OneEntry(c, key, y);
  }

  lemma {:induction false} FirstStream(st: StreamState)
    requires st.cache == map[] && st.emitted == [] && WriterTables.Inv(st.writer)
    requires Names(Read(st.writer.records).strings, st.categoryId, CATEGORY, WriterTables.Roomy(st.writer))
    requires Read(st.writer.records).events == st.earlier
    ensures StreamInv(st)
  {
    var events := Read(st.writer.records).events;
    assert events[|st.earlier|..] == [] && events[..|st.earlier|] == events;
  }
}
