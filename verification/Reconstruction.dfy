/** The whole reconstructor as a function of its events: one thread machine per thread, a common base
    time, and one event stream they all write to. */
module Reconstruction {
  import opened Texts
  import opened PerfEvent
  import opened ThreadMachine
  import StackMeaning
  import opened EventStream

  datatype ReconState = ReconState(
    stream: StreamState,
    base: Option<Word64>,
    threads: map<ThreadKey, ThreadState>)

  function ThreadOf(r: ReconState, key: ThreadKey): ThreadState {
    if key in r.threads then r.threads[key] else FRESH_THREAD
  }

  /** The entries a thread has written between two of its states. */
  function Delta(t: ThreadState, u: ThreadState): seq<Entry> {
    if |t.written| <= |u.written| then u.written[|t.written|..] else []
  }

  ghost predicate ReconInv(r: ReconState) {
    StreamInv(r.stream) &&
    forall key :: Project(r.stream.emitted, key) == ThreadOf(r, key).written
  }

  /** One thread moves on, and what it writes goes to the stream. */
  ghost function MoveThread(r: ReconState, key: ThreadKey, t: ThreadState): ReconState
    requires StreamInv(r.stream)
  {
    r.(stream := EmitEntries(r.stream, key, Delta(ThreadOf(r, key), t)), threads := r.threads[key := t])
  }

  ghost function ProcessEvent(r: ReconState, e: Event): ReconState
    requires StreamInv(r.stream)
  {
    if !e.Relevant() then r
    else
      var base := if r.base.Some? then r.base.value else e.Time();
      MoveThread(r.(base := Some(base)), e.Key(), Step(ThreadOf(r, e.Key()), base, e))
  }

  ghost function ProcessAll(r: ReconState, events: seq<Event>): (s: ReconState)
    requires StreamInv(r.stream)
    ensures StreamInv(s.stream)
    decreases |events|
  {
    if events == [] then r else ProcessEvent(ProcessAll(r, events[..|events| - 1]), events[|events| - 1])
  }

  /** `finish`, visiting the threads in the given order. */
  ghost function FinishAll(r: ReconState, order: seq<ThreadKey>): (s: ReconState)
    requires StreamInv(r.stream)
    ensures StreamInv(s.stream)
    decreases |order|
  {
    if order == [] then r
    else
      var before := FinishAll(r, order[..|order| - 1]);
      var key := order[|order| - 1];
      MoveThread(before, key, FinishThread(ThreadOf(before, key)))
  }

  predicate Distinct(order: seq<ThreadKey>) {
    forall i, j :: 0 <= i < j < |order| ==> order[i] != order[j]
  }

  /** Each thread exactly once. */
  ghost predicate Visits(order: seq<ThreadKey>, keys: set<ThreadKey>) {
    (forall k :: k in order <==> k in keys) && Distinct(order)
  }

  // ----- One thread among others ----------------------------------------------------------------

  /** The events of one process and thread, in order. */
  function EventsOf(events: seq<Event>, key: ThreadKey): seq<Event> {
    if events == [] then []
    else
      var last := events[|events| - 1];
      EventsOf(events[..|events| - 1], key) + (if last.pid == key.pid && last.tid == key.tid then [last] else [])
  }

  /** The time of the first event that bears on the stacks. */
  function BaseOf(events: seq<Event>): Option<Word64> {
    if events == [] then None
    else
      match BaseOf(events[..|events| - 1])
      case Some(base) => Some(base)
      case None => StackMeaning.Stamp(events[|events| - 1])
  }

  lemma {:induction false} MoveThreadInv(r: ReconState, key: ThreadKey, t: ThreadState)
    requires ReconInv(r) && Grows(ThreadOf(r, key), t)
    ensures ReconInv(MoveThread(r, key, t))
  {
    hide StreamInv, EmitEntries;
    var s := MoveThread(r, key, t);
    var es := Delta(ThreadOf(r, key), t);
    forall k ensures Project(s.stream.emitted, k) == ThreadOf(s, k).written {
      EmitEntriesProject(r.stream, key, es, k);
      if k == key {
        assert ThreadOf(r, key).written + es == t.written;
      }
    }
  }

  lemma {:induction false} ProcessEventInv(r: ReconState, e: Event)
    requires ReconInv(r)
    ensures ReconInv(ProcessEvent(r, e))
  {
    hide MoveThread, Step, StreamInv;
    if e.Relevant() {
      var base := if r.base.Some? then r.base.value else e.Time();
      StepGrows(ThreadOf(r, e.Key()), base, e);
      var s := r.(base := Some(base));
      assert forall k :: ThreadOf(s, k) == ThreadOf(r, k);
      MoveThreadInv(s, e.Key(), Step(ThreadOf(r, e.Key()), base, e));
    }
  }

  /** A thread's state depends on its own events and the base time alone. */
  lemma {:induction false} ThreadAlone(r: ReconState, events: seq<Event>, key: ThreadKey)
    requires ReconInv(r) && r.base == None && r.threads == map[]
    ensures var s := ProcessAll(r, events);
            ReconInv(s) && s.base == BaseOf(events) && s.stream.earlier == r.stream.earlier &&
            s.stream.categoryId == r.stream.categoryId &&
            (s.base == None ==> s.threads == map[]) &&
            forall base :: s.base == Some(base) ==>
              ThreadOf(s, key) == RunThread(FRESH_THREAD, base, EventsOf(events, key))
    ensures BaseOf(events) == None ==> RunThread(FRESH_THREAD, 0, EventsOf(events, key)) == FRESH_THREAD
    decreases |events|
  {
    if events != [] {
      var n := |events| - 1;
      var e := events[n];
      ThreadAlone(r, events[..n], key);
      var before := ProcessAll(r, events[..n]);
      ProcessEventInv(before, e);
      ProcessEventThread(before, e, key);
      RunExtends(events, key, if before.base.Some? then before.base.value else if e.Relevant() then e.Time() else 0);
      if before.base == None {
        IrrelevantRun(events[..n], key, if e.Relevant() then e.Time() else 0);
      }
    }
  }

  lemma {:induction false} ProcessEventThread(r: ReconState, e: Event, key: ThreadKey)
    requires StreamInv(r.stream)
    ensures var s := ProcessEvent(r, e);
            s.stream.earlier == r.stream.earlier && s.stream.categoryId == r.stream.categoryId &&
            if !e.Relevant() then s == r
            else
              var base := if r.base.Some? then r.base.value else e.Time();
              s.base == Some(base) &&
              ThreadOf(s, key) ==
              if e.pid == key.pid && e.tid == key.tid then Step(ThreadOf(r, key), base, e) else ThreadOf(r, key)
  {
    hide StreamInv, EmitEntries, Step;
    if e.Relevant() {
      var base := if r.base.Some? then r.base.value else e.Time();
      EmitEntriesProject(r.stream, e.Key(), Delta(ThreadOf(r, e.Key()), Step(ThreadOf(r, e.Key()), base, e)), key);
    }
  }

  lemma {:induction false} RunExtends(events: seq<Event>, key: ThreadKey, base: Word64)
    requires events != []
    ensures var last := events[|events| - 1];
            var t := RunThread(FRESH_THREAD, base, EventsOf(events[..|events| - 1], key));
            RunThread(FRESH_THREAD, base, EventsOf(events, key)) ==
            if last.pid == key.pid && last.tid == key.tid then Step(t, base, last) else t
  {
    hide Step;
    var last := events[|events| - 1];
    var own := EventsOf(events[..|events| - 1], key);
    assert (own + [last])[..|own|] == own;
    assert own + [] == own;
  }

  /** Events the reconstructor does not look at leave a thread fresh. */
  lemma {:induction false} IrrelevantRun(events: seq<Event>, key: ThreadKey, base: Word64)
    requires BaseOf(events) == None
    ensures RunThread(FRESH_THREAD, base, EventsOf(events, key)) == FRESH_THREAD
    decreases |events|
  {
    if events != [] {
      IrrelevantRun(events[..|events| - 1], key, base);
      RunExtends(events, key, base);
    }
  }

  lemma {:induction false} FinishThreadsInv(r: ReconState, order: seq<ThreadKey>, key: ThreadKey)
    requires ReconInv(r)
    requires Distinct(order)
    ensures var s := FinishAll(r, order);
            ReconInv(s) && s.stream.earlier == r.stream.earlier && s.stream.categoryId == r.stream.categoryId &&
            ThreadOf(s, key) == if key in order then FinishThread(ThreadOf(r, key)) else ThreadOf(r, key)
    decreases |order|
  {
    hide StreamInv, EmitEntries, FinishThread;
    if order != [] {
      var n := |order| - 1;
      FinishThreadsInv(r, order[..n], key);
      FinishThreadsInv(r, order[..n], order[n]);
      var before := FinishAll(r, order[..n]);
      var t := FinishThread(ThreadOf(before, order[n]));
      FinishGrows(ThreadOf(before, order[n]));
      MoveThreadInv(before, order[n], t);
      EmitEntriesProject(before.stream, order[n], Delta(ThreadOf(before, order[n]), t), key);
      assert order == order[..n] + [order[n]];
    }
  }

  // ----- What is written stays written ------------------------------------------------------------

  lemma {:induction false} ProcessAllAppends(r: ReconState, events: seq<Event>)
    requires StreamInv(r.stream)
    ensures r.stream.writer.records <= ProcessAll(r, events).stream.writer.records
    decreases |events|
  {
    hide StreamInv, EmitEntries, Step;
    if events != [] {
      var n := |events| - 1;
      ProcessAllAppends(r, events[..n]);
      var s, e := ProcessAll(r, events[..n]), events[n];
      if e.Relevant() {
        var base := if s.base.Some? then s.base.value else e.Time();
        EntriesAppend(s.stream, e.Key(), Delta(ThreadOf(s, e.Key()), Step(ThreadOf(s, e.Key()), base, e)));
      }
    }
  }

  lemma {:induction false} FinishAllAppends(r: ReconState, order: seq<ThreadKey>)
    requires StreamInv(r.stream)
    ensures r.stream.writer.records <= FinishAll(r, order).stream.writer.records
    decreases |order|
  {
    hide StreamInv, EmitEntries, FinishThread;
    if order != [] {
      var n := |order| - 1;
      FinishAllAppends(r, order[..n]);
      var s, key := FinishAll(r, order[..n]), order[n];
      EntriesAppend(s.stream, key, Delta(ThreadOf(s, key), FinishThread(ThreadOf(s, key))));
    }
  }
}
