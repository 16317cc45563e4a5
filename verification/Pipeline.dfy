/** The pipeline from perf lines to trace bytes, and what a reader of the bytes finds in them. */
module Pipeline {
  import opened Texts
  import opened PerfEvent
  import opened ThreadMachine
  import opened StackDiscipline
  import opened Timing
  import opened SpanTiming
  import opened LogMeaning
  import opened Records
  import opened Reader
  import opened WriterTables
  import WriterRuns
  import opened EventStream
  import opened Reconstruction
  import opened StringBudget
  import opened ShortenSymbol
  import opened TraceNames
  import opened TraceStrings
  import FX = FxtWriter
  import SR = StackReconstructor
  import P = PerfScriptParser
  import F = TraceFilter

  // ----- One thread's events in the trace -------------------------------------------------------

  /** The log a thread's own events mean, at the base time of the whole run. */
  function LogOf(events: seq<Event>, key: ThreadKey): seq<Entry> {
    match BaseOf(events)
    case None => []
    case Some(base) => LaidLog(base, EventsOf(events, key))
  }

  /** The trace's events that resolve to the thread. */
  function EventsFor(events: seq<TraceEvent>, key: ThreadKey): seq<TraceEvent> {
    if events == [] then []
    else
      var last := events[|events| - 1];
      EventsFor(events[..|events| - 1], key) + (if last.thread == Some(key) then [last] else [])
  }

  /** The trace events are the log, entry by entry. */
  predicate ShowsLog(events: seq<TraceEvent>, log: seq<Entry>, key: ThreadKey, ids: map<Text, Word16>,
      categoryId: Word16) {
    |events| == |log| &&
    forall i :: 0 <= i < |log| ==> Shows(events[i], Emission(key, log[i]), ids, categoryId)
  }

  /** Begins push their name reference; an end must carry the reference of the begin it closes. */
  function RefReplay(events: seq<TraceEvent>, stack: seq<Word16>): Option<seq<Word16>> {
    if events == [] then Some(stack)
    else if events[0].eventType == 2 then RefReplay(events[1..], stack + [events[0].nameRef])
    else if events[0].eventType == 3 && stack != [] && stack[|stack| - 1] == events[0].nameRef then
      RefReplay(events[1..], stack[..|stack| - 1])
    else None
  }

  lemma {:induction false} EventsForShow(events: seq<TraceEvent>, emitted: seq<Emission>, ids: map<Text, Word16>,
      categoryId: Word16, key: ThreadKey)
    requires ShowsAll(events, emitted, ids, categoryId)
    ensures ShowsLog(EventsFor(events, key), Project(emitted, key), key, ids, categoryId)
    decreases |events|
  {
    if events != [] {
      var n := |events| - 1;
      assert Shows(events[n], emitted[n], ids, categoryId);
      EventsForShow(events[..n], emitted[..n], ids, categoryId, key);
    }
  }

  function RefsOf(stack: seq<Text>, ids: map<Text, Word16>): (refs: seq<Word16>)
    requires forall s :: s in stack ==> s in ids
    ensures |refs| == |stack|
  {
    seq(|stack|, i requires 0 <= i < |stack| => ids[stack[i]])
  }

  /** A log that replays by symbol replays by name reference. */
  lemma {:induction false} RefsReplay(events: seq<TraceEvent>, log: seq<Entry>, key: ThreadKey,
      ids: map<Text, Word16>, categoryId: Word16, stack: seq<Text>)
    requires ShowsLog(events, log, key, ids, categoryId)
    requires Replay(Ops(log), stack).Some? && forall s :: s in stack ==> s in ids
    ensures var end := Replay(Ops(log), stack).value;
            (forall s :: s in end ==> s in ids) &&
            RefReplay(events, RefsOf(stack, ids)) == Some(RefsOf(end, ids))
    decreases |log|
  {
    if log != [] {
      assert Shows(events[0], Emission(key, log[0]), ids, categoryId);
      assert Ops(log)[1..] == Ops(log[1..]);
      var symbol := log[0].symbol;
      if log[0].phase == Begin {
        var next := stack + [symbol];
        assert RefsOf(next, ids) == RefsOf(stack, ids) + [events[0].nameRef];
        RefsReplay(events[1..], log[1..], key, ids, categoryId, next);
      } else {
        var next := stack[..|stack| - 1];
        assert RefsOf(next, ids) == RefsOf(stack, ids)[..|stack| - 1];
        RefsReplay(events[1..], log[1..], key, ids, categoryId, next);
      }
    }
  }

  // ----- The whole trace ------------------------------------------------------------------------

  /** One thread's part: its log, entry by entry, balanced and nested by name reference. */
  predicate ThreadFaithful(events: seq<TraceEvent>, input: seq<Event>, key: ThreadKey, ids: map<Text, Word16>,
      categoryId: Word16) {
    ShowsLog(EventsFor(events, key), LogOf(input, key), key, ids, categoryId) &&
    RefReplay(EventsFor(events, key), []) == Some([])
  }

  /** The strings the trace of the events needs: the category, and the display names and labels of the
      threads' logs. */
  function Wanted(events: seq<Event>): set<Text> {
    {"trace"} + (set key, s | key in Keys(events) && s in LogStrings(key, LogOf(events, key)) :: s)
  }

  function Keys(events: seq<Event>): set<ThreadKey> {
    set e | e in events :: ThreadKey(e.pid, e.tid)
  }

  /** No event comes after more strings were bound than there are ids. */
  predicate InBounds(events: seq<TraceEvent>) {
    forall i :: 0 <= i < |events| ==> events[i].bound <= 32767
  }

  predicate AllResolve(events: seq<TraceEvent>) {
    forall i :: 0 <= i < |events| ==> events[i].thread.Some? && events[i].name.Some? && events[i].category.Some?
  }

  ghost predicate AllFaithful(events: seq<TraceEvent>, input: seq<Event>, ids: map<Text, Word16>,
      categoryId: Word16) {
    forall key :: ThreadFaithful(events, input, key, ids, categoryId)
  }

  predicate NamesGiven(events: seq<TraceEvent>, log: seq<Entry>) {
    |events| == |log| &&
    forall i :: 0 <= i < |log| ==> events[i].name == Some(Truncate(Shorten(log[i].symbol)))
  }

  /** Every event shows the category, and its own symbol's display name. */
  ghost predicate AsGiven(events: seq<TraceEvent>, input: seq<Event>) {
    Categorised(events) && forall key :: NamesGiven(EventsFor(events, key), LogOf(input, key))
  }

  /** Every thread that has a log is shown by its name, and so is its process. */
  ghost predicate Labelled(records: seq<Record>, input: seq<Event>) {
    forall key :: LogOf(input, key) != [] ==>
      ThreadTold(records, key)
  }

  /** The input needs no more distinct strings than there are ids. */
  predicate FewWanted(input: seq<Event>) {
    |Wanted(input)| <= 32767
  }

  /** What a reader of the records finds: every event resolves, and for every thread, whatever the
      others did, its events are its log, each with its name and category as given unless it refers to
      id 1 and comes after more strings were bound than there are ids. No event comes that late, every
      category is as given, and every name and category together are, each exactly if the input needs
      few enough strings; and then the threads and processes are shown by their names, too. */
  ghost predicate Faithful(records: seq<Record>, input: seq<Event>) {
    var events := Read(records).events;
    AllResolve(events) &&
    (InBounds(events) <==> FewWanted(input)) &&
    (Categorised(events) <==> FewWanted(input)) &&
    (AsGiven(events, input) <==> FewWanted(input)) &&
    (FewWanted(input) ==> Labelled(records, input)) &&
    exists ids: map<Text, Word16>, categoryId: Word16 :: AllFaithful(events, input, ids, categoryId)
  }

  lemma {:induction false} LogBalanced(events: seq<Event>, key: ThreadKey)
    ensures Balanced(Ops(LogOf(events, key)))
  {
    match BaseOf(events)
    case None =>
    case Some(base) =>
      LogIsLaidOut(base, EventsOf(events, key));
      FinishedLogBalanced(base, EventsOf(events, key));
  }

  lemma {:induction false} FreshFinish()
    ensures FinishThread(FRESH_THREAD).written == []
  {
    assert ClearCallstack(FRESH_THREAD, 0) == FRESH_THREAD;
    assert ClearAll(FRESH_THREAD, 0) == FRESH_THREAD;
  }

  /** After the run each thread's share of the stream is its log. */
  lemma {:induction false} FinishedShare(r: ReconState, events: seq<Event>, order: seq<ThreadKey>, key: ThreadKey)
    requires ReconInv(r) && r.base == None && r.threads == map[]
    requires Visits(order, ProcessAll(r, events).threads.Keys)
    ensures var f := FinishAll(ProcessAll(r, events), order);
            ReconInv(f) && f.stream.earlier == r.stream.earlier &&
            Project(f.stream.emitted, key) == LogOf(events, key)
  {
    hide FinishThread, StreamInv, RunThread, Step;
    ThreadAlone(r, events, key);
    var s := ProcessAll(r, events);
    FinishThreadsInv(s, order, key);
    var f := FinishAll(s, order);
    FreshFinish();
    assert Project(f.stream.emitted, key) == ThreadOf(f, key).written;
    match BaseOf(events)
    case None =>
    case Some(base) =>
      LogIsLaidOut(base, EventsOf(events, key));
      assert ThreadOf(s, key) == RunThread(FRESH_THREAD, base, EventsOf(events, key));
  }

  lemma {:induction false} ShownResolve(events: seq<TraceEvent>, emitted: seq<Emission>, ids: map<Text, Word16>,
      categoryId: Word16)
    requires ShowsAll(events, emitted, ids, categoryId)
    ensures AllResolve(events)
  {
    forall i | 0 <= i < |events| ensures events[i].thread.Some? && events[i].name.Some? && events[i].category.Some? {
      assert Shows(events[i], emitted[i], ids, categoryId);
    }
  }

  /** What the stream's invariant says when nothing was written before. */
  lemma {:induction false} StreamShows(st: StreamState)
    requires StreamInv(st) && st.earlier == []
    ensures ShowsAll(Read(st.writer.records).events, st.emitted, st.cache, st.categoryId)
  {
    hide Read, Inv, ShowsAll, Names, CacheOk;
    var shown := Read(st.writer.records).events;
    assert shown[0..] == shown;
  }

  lemma {:induction false} ShownThread(events: seq<TraceEvent>, emitted: seq<Emission>, ids: map<Text, Word16>,
      categoryId: Word16, input: seq<Event>, key: ThreadKey)
    requires ShowsAll(events, emitted, ids, categoryId) && Project(emitted, key) == LogOf(input, key)
    ensures ThreadFaithful(events, input, key, ids, categoryId)
  {
    hide LogOf, ShowsLog, EventsFor, RefReplay, ShowsAll;
    EventsForShow(events, emitted, ids, categoryId, key);
    LogBalanced(input, key);
    RefsReplay(EventsFor(events, key), LogOf(input, key), key, ids, categoryId, []);
    assert RefsOf([], ids) == [];
  }

  // ----- The strings it needs -------------------------------------------------------------------

  lemma {:induction false} BoundsGrow(rs: seq<Record>)
    ensures forall i :: 0 <= i < |Read(rs).events| ==> Read(rs).events[i].bound <= Read(rs).bound
    decreases |rs|
  {
    if rs != [] {
      BoundsGrow(rs[..|rs| - 1]);
    }
  }

  lemma {:induction false} OwnEvents(events: seq<Event>, key: ThreadKey)
    ensures forall e :: e in EventsOf(events, key) ==> e in events
    decreases |events|
  {
    if events != [] {
      OwnEvents(events[..|events| - 1], key);
    }
  }

  lemma {:induction false} NoKeyNoEvents(events: seq<Event>, key: ThreadKey)
    requires key !in Keys(events)
    ensures EventsOf(events, key) == []
    decreases |events|
  {
    if events != [] {
      var last := events[|events| - 1];
      assert ThreadKey(last.pid, last.tid) in Keys(events);
      NoKeyNoEvents(events[..|events| - 1], key);
    }
  }

  lemma {:induction false} NoKeyNoLog(events: seq<Event>, key: ThreadKey)
    requires key !in Keys(events)
    ensures LogOf(events, key) == []
  {
    hide LaidLog;
    match BaseOf(events)
    case None =>
    case Some(base) =>
      NoKeyNoEvents(events, key);
      LogIsLaidOut(base, []);
      FreshFinish();
  }

  lemma {:induction false} WantedIs(emitted: seq<Emission>, events: seq<Event>)
    requires forall key :: Project(emitted, key) == LogOf(events, key)
    ensures {CATEGORY} + StreamStrings(emitted) == Wanted(events)
  {
    hide LogOf, LogStrings, StreamStrings, Project;
    forall s | s in StreamStrings(emitted) ensures s in Wanted(events) {
      var key := OfSomeThread(emitted, s);
      if key !in Keys(events) {
        NoKeyNoLog(events, key);
        NoStrings(key);
      }
    }
    forall s | s in Wanted(events) ensures s in {CATEGORY} + StreamStrings(emitted) {
      if s != CATEGORY {
        var key :| key in Keys(events) && s in LogStrings(key, LogOf(events, key));
        OfStream(emitted, key);
      }
    }
  }

  lemma {:induction false} NoStrings(key: ThreadKey)
    ensures LogStrings(key, []) == {}
  {
  }

  lemma {:induction false} BoundsAreWanted(st: StreamState, wanted: set<Text>)
    requires StreamInv(st) && st.earlier == [] && Budgeted(st)
    requires wanted == {CATEGORY} + StreamStrings(st.emitted)
    ensures InBounds(Read(st.writer.records).events) <==> |wanted| <= MAX_STRING_ID
  {
    hide Read, StreamInv, StreamStrings;
    var events := Read(st.writer.records).events;
    BoundsGrow(st.writer.records);
    StreamShows(st);
    assert Counted(st.writer, wanted);
    if st.emitted == [] {
      NothingWanted();
      assert |{CATEGORY}| == 1;
    } else {
      assert events[|events| - 1].bound == Bindings(st.writer.records);
    }
  }

  /** Few strings are wanted exactly if ids have lasted, and then whatever the reader is told is right. */
  lemma {:induction false} WantedDecides(st: StreamState, input: seq<Event>)
    requires StreamInv(st) && st.earlier == [] && Budgeted(st)
    requires forall key :: Project(st.emitted, key) == LogOf(input, key)
    ensures var events := Read(st.writer.records).events;
            (InBounds(events) <==> FewWanted(input)) && (Categorised(events) <==> FewWanted(input)) &&
            (FewWanted(input) ==> Labelled(st.writer.records, input))
  {
    hide Read, StreamInv, StreamStrings, Wanted, LogOf, Project, ThreadShown, ThreadTold, InBounds, Categorised,
      CategoryHeld;
    WantedIs(st.emitted, input);
    BoundsAreWanted(st, Wanted(input));
    assert Counted(st.writer, Wanted(input));
    assert Roomy(st.writer) <==> FewWanted(input);
    if FewWanted(input) {
      StreamShows(st);
      InBoundsCategorised(Read(st.writer.records).events, st.emitted, st.cache, st.categoryId);
      forall key | LogOf(input, key) != [] ensures ThreadTold(st.writer.records, key) {
        var i := ProjectedFrom(st.emitted, key);
        ShownTells(st.writer.records, key);
      }
    }
  }

  lemma {:induction false} InBoundsCategorised(events: seq<TraceEvent>, emitted: seq<Emission>, ids: map<Text, Word16>,
      categoryId: Word16)
    requires ShowsAll(events, emitted, ids, categoryId) && InBounds(events)
    ensures Categorised(events)
  {
    forall i | 0 <= i < |events| ensures events[i].category == Some(CATEGORY) {
      assert Shows(events[i], emitted[i], ids, categoryId);
    }
  }

  lemma {:induction false} ProjectedFrom(emitted: seq<Emission>, key: ThreadKey) returns (i: nat)
    requires Project(emitted, key) != []
    ensures i < |emitted| && emitted[i].key == key
    decreases |emitted|
  {
    var n := |emitted| - 1;
    if emitted[n].key == key {
      i := n;
    } else {
      i := ProjectedFrom(emitted[..n], key);
    }
  }

  lemma {:induction false} OwnInBounds(events: seq<TraceEvent>, key: ThreadKey)
    requires InBounds(events)
    ensures InBounds(EventsFor(events, key))
    decreases |events|
  {
    if events != [] {
      OwnInBounds(events[..|events| - 1], key);
    }
  }

  lemma {:induction false} InBoundsNamed(events: seq<TraceEvent>, input: seq<Event>, key: ThreadKey,
      ids: map<Text, Word16>, categoryId: Word16)
    requires InBounds(events) && ThreadFaithful(events, input, key, ids, categoryId)
    ensures NamesGiven(EventsFor(events, key), LogOf(input, key))
  {
    hide LogOf, Shorten, Truncate;
    OwnInBounds(events, key);
    var own, log := EventsFor(events, key), LogOf(input, key);
    forall i | 0 <= i < |log| ensures own[i].name == Some(Truncate(Shorten(log[i].symbol))) {
      assert Shows(own[i], Emission(key, log[i]), ids, categoryId);
    }
  }

  lemma {:induction false} NothingWanted()
    ensures {CATEGORY} + StreamStrings([]) == {CATEGORY}
  {
  }

  /** Nothing has been processed, the trace holds no event, and the writer was asked for nothing but
      the category. */
  ghost predicate Blank(r: ReconState) {
    ReconInv(r) && r.base == None && r.threads == map[] && r.stream.earlier == [] && Budgeted(r.stream)
  }

  /** What every trace begins with: the magic number, one provider with its section, and a clock of one
      tick a nanosecond that starts at the given time. */
  predicate Begun(records: seq<Record>, baseTimeNs: Word64) {
    [Magic, ProviderInfo(0, "tracey_mctraceface"), ProviderSection(0), Init(1_000_000_000, 0, baseTimeNs)] <= records
  }

  /** The trace of any run is faithful, in whatever order `finish` visits the threads. */
  lemma {:induction false} RunFaithful(r: ReconState, events: seq<Event>, order: seq<ThreadKey>)
    requires Blank(r) && Visits(order, ProcessAll(r, events).threads.Keys)
    ensures Faithful(FinishAll(ProcessAll(r, events), order).stream.writer.records, events)
  {
    hide Read, StreamInv, LogOf, ShowsAll, AllResolve, ThreadFaithful, Project, ProcessAll, FinishAll, Visits;
    hide InBounds, FewWanted, Budgeted, Categorised, NamesGiven, Labelled;
    var st := FinishAll(ProcessAll(r, events), order).stream;
    FinishedShare(r, events, order, ThreadKey(0, 0));
    StreamShows(st);
    var shown := Read(st.writer.records).events;
    ShownResolve(shown, st.emitted, st.cache, st.categoryId);
    forall key
      ensures Project(st.emitted, key) == LogOf(events, key)
      ensures ThreadFaithful(shown, events, key, st.cache, st.categoryId)
    {
      FinishedShare(r, events, order, key);
      ShownThread(shown, st.emitted, st.cache, st.categoryId, events, key);
    }
    assert AllFaithful(shown, events, st.cache, st.categoryId);
    ProcessAllBudgeted(r, events);
    FinishAllBudgeted(ProcessAll(r, events), order);
    WantedDecides(st, events);
    if FewWanted(events) {
      forall key ensures NamesGiven(EventsFor(shown, key), LogOf(events, key)) {
        InBoundsNamed(shown, events, key, st.cache, st.categoryId);
      }
    }
  }

  lemma {:induction false} RunBegun(r: ReconState, events: seq<Event>, order: seq<ThreadKey>, baseTimeNs: Word64)
    requires StreamInv(r.stream) && Begun(r.stream.writer.records, baseTimeNs)
    ensures Begun(FinishAll(ProcessAll(r, events), order).stream.writer.records, baseTimeNs)
  {
    hide StreamInv, ProcessAll, FinishAll;
    ProcessAllAppends(r, events);
    FinishAllAppends(ProcessAll(r, events), order);
  }

  // ----- Times in the whole trace -------------------------------------------------------------

  /** The base is the time of the first relevant event, so no later one precedes it. */
  lemma {:induction false} BaseFirst(events: seq<Event>)
    requires InOrder(false, 0, events)
    ensures match BaseOf(events)
            case None => forall e :: e in events ==> !e.Relevant()
            case Some(base) => InOrder(false, base, events)
    ensures BaseOf(events).Some? ==> exists e :: e in events && e.Relevant() && e.Time() == BaseOf(events).value
    decreases |events|
  {
    if events != [] {
      var n := |events| - 1;
      assert events == events[..n] + [events[n]];
      BaseFirst(events[..n]);
    }
  }

  lemma {:induction false} OwnInOrder(strictEntries: bool, base: Word64, events: seq<Event>, key: ThreadKey)
    requires InOrder(strictEntries, base, events)
    ensures InOrder(strictEntries, base, EventsOf(events, key))
    decreases |events|
  {
    if events != [] {
      var n := |events| - 1;
      OwnInOrder(strictEntries, base, events[..n], key);
      OwnEvents(events[..n], key);
      var own := EventsOf(events[..n], key);
      forall k | 0 <= k < |own| ensures exists i :: 0 <= i < n && events[i] == own[k] {
        assert own[k] in events[..n];
      }
    }
  }

  predicate OwnSettled(events: seq<Event>, key: ThreadKey) {
    match BaseOf(events)
    case None => true
    case Some(base) => Settled(base, EventsOf(events, key))
  }

  /** When the input is in order of time, as perf prints it, every thread's log is well timed, though
      the base is the first event of any thread; and a thread's spans nest in time if none of its
      syscalls and hardware interrupts meets a late frame, as when they come strictly after its earlier
      events. */
  lemma {:induction false} OrderedInputTimes(events: seq<Event>, key: ThreadKey)
    requires InOrder(false, 0, events)
    ensures EndsInOrder(LogOf(events, key))
    ensures OwnSettled(events, key) || InOrder(true, 0, EventsOf(events, key)) ==> SpansNested(LogOf(events, key))
  {
    hide FinishedLog, LaidLog, SpansNested, Settled;
    BaseFirst(events);
    match BaseOf(events)
    case None =>
      assert Timed(true, [], START) == Some(START) && Balanced(Ops([]));
      TimedMeansNested([]);
    case Some(base) =>
      OwnInOrder(false, base, events, key);
      LogIsLaidOut(base, EventsOf(events, key));
      DurationsAndEnds(base, EventsOf(events, key));
      if OwnSettled(events, key) || InOrder(true, 0, EventsOf(events, key)) {
        if InOrder(true, 0, EventsOf(events, key)) {
          StrictIsSettled(base, EventsOf(events, key));
        }
        SpansNest(base, EventsOf(events, key));
      }
  }

  // ----- The driver -----------------------------------------------------------------------------

  lemma {:induction false} PassedNext(cfg: F.Config, events: seq<Event>, event: Event)
    ensures F.After(cfg, events + [event]) == F.Step(cfg, F.After(cfg, events), event).0
    ensures F.Passed(cfg, events + [event]) ==
            F.Passed(cfg, events) + (if F.Step(cfg, F.After(cfg, events), event).1 then [event] else [])
  {
    assert (events + [event])[..|events|] == events;
  }

  lemma {:induction false} ProcessAllNext(r: ReconState, events: seq<Event>, event: Event)
    requires StreamInv(r.stream)
    ensures ProcessAll(r, events + [event]) == ProcessEvent(ProcessAll(r, events), event)
  {
    assert (events + [event])[..|events|] == events;
  }

  /** The filter and the reconstructor have been given the events. */
  ghost predicate Given(filter: F.TraceFilter, recon: SR.StackReconstructor, start: ReconState, events: seq<Event>)
    reads filter, recon, recon.writer, recon.writer.sink, recon.threads.Values
    requires StreamInv(start.stream)
  {
    filter.State() == F.After(filter.config, events) &&
    recon.State() == ProcessAll(start, F.Passed(filter.config, events))
  }

  /** Passes an event, if there is one, through the filter to the reconstructor. */
  method Offer(filter: F.TraceFilter, recon: SR.StackReconstructor, event: Option<Event>, ghost start: ReconState,
      ghost events: seq<Event>)
    requires recon.Valid() && StreamInv(start.stream) && Given(filter, recon, start, events)
    modifies filter, recon, recon.writer, recon.writer.sink, recon.threads.Values
    ensures recon.Valid() && fresh(recon.threads.Values - old(recon.threads.Values))
    ensures Given(filter, recon, start, events + P.Events(event))
  {
    hide SR.StackReconstructor.Valid, F.Step, ProcessEvent, ProcessAll, F.After, F.Passed, StreamInv;
    assert events + [] == events && F.Passed(filter.config, events) + [] == F.Passed(filter.config, events);
    if event.Some? {
      PassedNext(filter.config, events, event.value);
      ProcessAllNext(start, F.Passed(filter.config, events), event.value);
      var pass := filter.ShouldPass(event.value);
      if pass {
        recon.ProcessEvent(event.value);
      }
    }
  }

  lemma {:induction false} NothingGiven(start: ReconState, cfg: F.Config)
    requires StreamInv(start.stream)
    ensures F.After(cfg, []) == F.Initial(cfg) && ProcessAll(start, F.Passed(cfg, [])) == start
  {
  }

  /** After the preamble there is no event, and the writer was asked for nothing; then it was asked for
      the category. */
  lemma {:induction false} PreambleBudget(st: StreamState, name: Text, id: Word32, ticks: Word64,
      baseTicks: Word64, baseTimeNs: Word64)
    ensures var w := WriterRuns.EmitAll(NEW_WRITER, WriterRuns.Preamble(name, id, ticks, baseTicks, baseTimeNs));
            Inv(w) && Read(w.records).events == [] &&
            ((st.writer, st.categoryId) == Intern(w, CATEGORY) && st.cache == map[] && st.emitted == [] ==>
              Budgeted(st))
  {
    hide WriterRuns.EmitAll, Inv, Read, Bindings, Intern, Counted;
    NewWriterInv();
    var rs := WriterRuns.Preamble(name, id, ticks, baseTicks, baseTimeNs);
    WriterRuns.PreambleInv(NEW_WRITER, rs);
    EmitAllTables(NEW_WRITER, rs);
    NothingAsked();
    EmitAllCounted(NEW_WRITER, rs, {});
    CategoryAsked(st, WriterRuns.EmitAll(NEW_WRITER, rs));
  }

  lemma {:induction false} CategoryAsked(st: StreamState, w: WriterState)
    requires Inv(w) && Counted(w, {}) && w.threads == map[] && w.named == {} && w.strings == map[] &&
             w.nextStringId == 1
    ensures Tables(w)
    ensures (st.writer, st.categoryId) == Intern(w, CATEGORY) && st.cache == map[] && st.emitted == [] ==> Budgeted(st)
  {
    hide Inv, Intern, Counted, CategoryHeld, ThreadShown, ProcessShown;
    InternCounted(w, CATEGORY, {});
    InternRoomy(w, CATEGORY);
    FirstHeld(w);
    assert {} + ({CATEGORY} - {[]}) == {CATEGORY};
    NothingWanted();
  }

  /** The category is given the first id. */
  lemma {:induction false} FirstHeld(w: WriterState)
    requires Tables(w) && Counted(w, {}) && w.strings == map[] && w.nextStringId == 1
    ensures var (v, id) := Intern(w, CATEGORY); id == 1 && Roomy(v) && CategoryHeld(v)
  {
    hide Read, Truncate;
    BindingsAppend(w.records, StringRecord(1, Truncate(CATEGORY)));
  }

  lemma {:induction false} NothingAsked()
    ensures Counted(NEW_WRITER, {}) && Read(NEW_WRITER.records).events == []
  {
  }

  lemma {:induction false} EmitAllTables(w: WriterState, rs: seq<Record>)
    ensures var v := WriterRuns.EmitAll(w, rs);
            v.threads == w.threads && v.named == w.named && v.strings == w.strings && v.nextStringId == w.nextStringId
    decreases |rs|
  {
    if rs != [] {
      EmitAllTables(Emit(w, rs[0]), rs[1..]);
    }
  }

  /** The sink's bytes are the records'. */
  lemma {:induction false} SinkHolds(recon: SR.StackReconstructor)
    requires recon.Valid() && recon.writer.start == []
    ensures var bytes := recon.writer.sink.buf;
            |bytes| % 8 == 0 && DecodeAll(bytes) == Some(recon.State().stream.writer.records)
  {
    BytesRoundTrip(recon.writer.records);
    assert [] + EncodeAll(recon.writer.records) == EncodeAll(recon.writer.records);
  }

  /** Feeds the lines one by one and then finishes the parser; each event goes on as soon as its group
      of lines is complete. */
  method FeedAll(lines: seq<Text>, filter: F.TraceFilter, recon: SR.StackReconstructor, ghost start: ReconState)
    requires recon.Valid() && StreamInv(start.stream) && Given(filter, recon, start, [])
    modifies filter, recon, recon.writer, recon.writer.sink, recon.threads.Values
    ensures recon.Valid() && fresh(recon.threads.Values - old(recon.threads.Values))
    ensures Given(filter, recon, start, P.ParseAll(P.Groups(lines)))
  {
    hide StreamInv, Given, P.ParseGroup, P.Feed, P.Groups, P.ParseAll, SR.StackReconstructor.Valid;
    var parser := new P.PerfScriptParser();
    ghost var parsed := [];
    for i := 0 to |lines|
      invariant recon.Valid() && fresh(recon.threads.Values - old(recon.threads.Values))
      invariant Given(filter, recon, start, parsed)
      invariant fresh(parser) && P.Stream([], lines) == parsed + P.Stream(parser.accumulatedLines, lines[i..])
    {
      assert lines[i..][0] == lines[i] && lines[i..][1..] == lines[i + 1..];
      var event := parser.FeedLine(lines[i]);
      Offer(filter, recon, event, start, parsed);
      parsed := parsed + P.Events(event);
    }
    assert lines[|lines|..] == [];
    var event := parser.Finish();
    Offer(filter, recon, event, start, parsed);
    P.StreamingEqualsBatch(lines);
  }

  lemma {:induction false} BegunStays(w: WriterState, s: Text, baseTimeNs: Word64)
    requires Tables(w) && Begun(w.records, baseTimeNs)
    ensures Begun(Intern(w, s).0.records, baseTimeNs)
  {
    assert w.records <= Intern(w, s).0.records;
  }

  /** A writer that has written the preamble. */
  method NewWriter(baseTimeNs: Word64) returns (writer: FX.FxtWriter)
    ensures fresh(writer) && fresh(writer.sink) && writer.Valid() && writer.start == []
    ensures writer.State() == WriterRuns.EmitAll(NEW_WRITER,
              WriterRuns.Preamble("tracey_mctraceface", 0, 1_000_000_000, 0, baseTimeNs))
    ensures Begun(writer.State().records, baseTimeNs)
  {
    hide Inv, WriterRuns.Preamble, WriterRuns.EmitAll, EncodeAll;
    var sink := new FX.VectorSink();
    writer := new FX.FxtWriter(sink);
    var name: Text := "tracey_mctraceface";
    writer.WritePreamble(name, 0, 1_000_000_000, 0, baseTimeNs);
    assert name[..|name|] == name;
  }

  /** A reconstructor on a new trace that holds only the preamble. */
  method NewTrace(baseTimeNs: Word64) returns (recon: SR.StackReconstructor)
    ensures fresh(recon) && fresh(recon.writer) && fresh(recon.writer.sink)
    ensures recon.threads == map[] && recon.writer.start == []
    ensures recon.Valid() && Blank(recon.State()) && Begun(recon.State().stream.writer.records, baseTimeNs)
  {
    hide StreamInv, Inv, Read, WriterRuns.Preamble, SR.StackReconstructor.Valid, Intern, Budgeted, Begun;
    hide WriterRuns.EmitAll, FX.FxtWriter.Valid;
    var writer := NewWriter(baseTimeNs);
    ghost var before := writer.State();
    recon := new SR.StackReconstructor(writer);
    PreambleBudget(recon.Stream(), "tracey_mctraceface", 0, 1_000_000_000, 0, baseTimeNs);
    recon.ValidParts();
    InvTables(before);
    BegunStays(before, CATEGORY, baseTimeNs);
  }

  /** Decodes perf's lines into a trace. For every input the bytes are whole records, and a reader of
      them finds exactly the logs of the events that the lines mean and the filter passes. */
  method Decode(lines: seq<Text>, config: F.Config, baseTimeNs: Word64) returns (bytes: seq<Byte>)
    ensures |bytes| % 8 == 0
    ensures DecodeAll(bytes).Some?
    ensures Begun(DecodeAll(bytes).value, baseTimeNs)
    ensures Faithful(DecodeAll(bytes).value, F.Passed(config, P.ParseAll(P.Groups(lines))))
  {
    hide StreamInv, Faithful, Begun, DecodeAll, Read, P.ParseAll, P.Groups, ProcessAll, FinishAll, Visits, F.After,
      F.Passed, SR.StackReconstructor.Valid;
    var recon := NewTrace(baseTimeNs);
    var filter := new F.TraceFilter(config);
    ghost var start := recon.State();
    NothingGiven(start, config);
    FeedAll(lines, filter, recon, start);
    assert recon.threads.Keys == recon.State().threads.Keys;
    ghost var order := recon.Finish();
    RunBegun(start, F.Passed(config, P.ParseAll(P.Groups(lines))), order, baseTimeNs);
    RunFaithful(start, F.Passed(config, P.ParseAll(P.Groups(lines))), order);
    bytes := recon.writer.sink.buf;
    SinkHolds(recon);
  }
}
