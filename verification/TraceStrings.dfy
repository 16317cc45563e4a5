/** The strings a trace needs, by what is logged: the display names of the symbols and the labels of
    the threads that log anything. The writer is asked for exactly these, whatever is cached. */
module TraceStrings {
  import opened Texts
  import opened ThreadMachine
  import opened ShortenSymbol
  import opened Records
  import opened Reader
  import opened WriterTables
  import opened StringBudget
  import opened TraceNames
  import opened EventStream
  import opened PerfEvent
  import opened Reconstruction

  function Labels(key: ThreadKey): set<Text> {
    {ThreadLabel(key.tid), ProcessLabel(key.pid), PROCESS}
  }

  /** What one entry of a thread needs; the empty string needs no id. */
  function EntryStrings(key: ThreadKey, e: Entry): set<Text> {
    ({Shorten(e.symbol)} - {[]}) + Labels(key)
  }

  function LogStrings(key: ThreadKey, log: seq<Entry>): set<Text> {
    if log == [] then {}
    else LogStrings(key, log[..|log| - 1]) + EntryStrings(key, log[|log| - 1])
  }

  function StreamStrings(emitted: seq<Emission>): set<Text> {
    if emitted == [] then {}
    else
      var last := emitted[|emitted| - 1];
      StreamStrings(emitted[..|emitted| - 1]) + EntryStrings(last.key, last.entry)
  }

  // ----- Thread by thread -----------------------------------------------------------------------

  lemma {:induction false} OfSomeThread(emitted: seq<Emission>, s: Text) returns (key: ThreadKey)
    requires s in StreamStrings(emitted)
    ensures s in LogStrings(key, Project(emitted, key))
    decreases |emitted|
  {
    var n := |emitted| - 1;
    var last := emitted[n];
    if s in EntryStrings(last.key, last.entry) {
      key := last.key;
    } else {
      key := OfSomeThread(emitted[..n], s);
    }
    var before := Project(emitted[..n], key);
    assert (before + [last.entry])[..|before|] == before && before + [] == before;
  }

  lemma {:induction false} OfStream(emitted: seq<Emission>, key: ThreadKey)
    ensures LogStrings(key, Project(emitted, key)) <= StreamStrings(emitted)
    decreases |emitted|
  {
    if emitted != [] {
      var n := |emitted| - 1;
      OfStream(emitted[..n], key);
      var before := Project(emitted[..n], key);
      assert (before + [emitted[n].entry])[..|before|] == before && before + [] == before;
    }
  }

  // ----- What the writer has been asked for -----------------------------------------------------

  /** Whatever is cached or named already has been asked for. */
  ghost predicate Known(st: StreamState, asked: set<Text>) {
    && Counted(st.writer, asked)
    && (forall raw :: raw in st.cache ==> {Shorten(raw)} - {[]} <= asked)
    && (forall key :: key in st.writer.threads ==> Labels(key) <= asked)
    && (forall pid :: pid in st.writer.named ==> ProcessLabel(pid) in asked)
  }

  lemma {:induction false} EnsureThreadNames(w: WriterState, key: ThreadKey)
    requires Inv(w)
    ensures Tables(w)
    ensures var v := EnsureThread(w, key);
            v.threads.Keys <= w.threads.Keys + {key} && v.named <= w.named + {key.pid}
  {
    hide Inv, Intern, Advances, Vacate, Roomy, Bindings, ProcessLabel, ThreadLabel;
    InvTables(w);
    if key !in w.threads {
      AssignInv(w, key);
      var a := AssignSlot(w, key);
      VacateKeys(w.threads, NextSlot(w));
      EnsureThreadTables(a, key);
      var m := NoteProcess(a, key.pid);
      NameProcessInv(m, key.pid, ProcessLabel(key.pid));
      var b := if key.pid in w.named then a else NameProcess(m, key.pid, ProcessLabel(key.pid));
      NameThreadInv(b, key, ThreadLabel(key.tid));
    }
  }

  lemma {:induction false} VacateKeys(threads: map<ThreadKey, Word8>, slot: Word8)
    ensures Vacate(threads, slot).Keys <= threads.Keys
  {
  }

  lemma {:induction false} InternKnown(st: StreamState, raw: Text, asked: set<Text>)
    requires StreamInv(st) && Known(st, asked)
    ensures Known(InternSymbol(st, raw).0, asked + ({Shorten(raw)} - {[]}))
  {
    hide Inv, Counted, Intern, Shorten, Labels, ProcessLabel, ShowsAll, Read, Names, CacheOk;
    var more := asked + ({Shorten(raw)} - {[]});
    if raw in st.cache {
      assert more == asked;
    } else {
      InternCounted(st.writer, Shorten(raw), asked);
      InternRoomy(st.writer, Shorten(raw));
    }
  }

  lemma {:induction false} ThreadKnown(st: StreamState, key: ThreadKey, asked: set<Text>)
    requires StreamInv(st) && Known(st, asked)
    ensures Known(WithThread(st, key), asked + Labels(key))
  {
    hide Inv, Counted, EnsureThread, Shorten, ProcessLabel, ThreadLabel, ShowsAll, Read, Names, CacheOk;
    EnsureThreadCounted(st.writer, key, asked);
    EnsureThreadNames(st.writer, key);
    assert asked + AskedByThread(st.writer, key) == asked + Labels(key);
  }

  /** Writing an entry asks for exactly its strings. */
  lemma {:induction false} EmitEntryKnown(st: StreamState, key: ThreadKey, e: Entry, asked: set<Text>)
    requires StreamInv(st) && Known(st, asked)
    ensures Known(EmitEntry(st, key, e), asked + EntryStrings(key, e))
  {
    hide StreamInv, Counted, InternSymbol, WithThread, Shorten, Labels, ProcessLabel, Read;
    InternSymbolInv(st, e.symbol);
    var (a, id) := InternSymbol(st, e.symbol);
    InternKnown(st, e.symbol, asked);
    var one := asked + ({Shorten(e.symbol)} - {[]});
    ThreadKnown(a, key, one);
    WithThreadInv(a, key);
    var b := WithThread(a, key);
    EmitCounted(b.writer, EventRecord(TypeOf(e.phase) % 16, b.writer.threads[key], b.categoryId, id, e.time),
      one + Labels(key));
    assert one + Labels(key) == asked + EntryStrings(key, e);
  }

  /** The writer was asked for the category and then for just what the stream needs, the last of it
      before the last event; and the reader is told accordingly. */
  ghost predicate Budgeted(st: StreamState) {
    Known(st, {CATEGORY} + StreamStrings(st.emitted)) && LastBound(st) && CategoryTold(st) && LabelsTold(st)
  }

  predicate LastBound(st: StreamState) {
    st.emitted != [] ==>
      var rd := Read(st.writer.records);
      rd.events != [] && rd.events[|rd.events| - 1].bound == rd.bound
  }

  lemma {:induction false} EmitEntryLast(st: StreamState, key: ThreadKey, e: Entry)
    requires StreamInv(st)
    ensures LastBound(EmitEntry(st, key, e))
  {
    hide StreamInv, InternSymbol, WithThread, Read;
    InternSymbolInv(st, e.symbol);
    var (a, id) := InternSymbol(st, e.symbol);
    WithThreadInv(a, key);
    var b := WithThread(a, key);
    ReadAppend(b.writer.records, EventRecord(TypeOf(e.phase) % 16, b.writer.threads[key], b.categoryId, id, e.time));
  }

  lemma {:induction false} EmitEntriesBudgeted(st: StreamState, key: ThreadKey, es: seq<Entry>)
    requires StreamInv(st) && Budgeted(st)
    ensures Budgeted(EmitEntries(st, key, es))
    decreases |es|
  {
    hide StreamInv, EmitEntry, Known, Read, EntryStrings, LastBound, CategoryTold, LabelsTold;
    if es != [] {
      var n := |es| - 1;
      EmitEntriesBudgeted(st, key, es[..n]);
      var s := EmitEntries(st, key, es[..n]);
      var asked := {CATEGORY} + StreamStrings(s.emitted);
      EmitEntryKnown(s, key, es[n], asked);
      EmitEntryLast(s, key, es[n]);
      EmitEntryCategory(s, key, es[n]);
      EmitEntryLabels(s, key, es[n]);
      var r := EmitEntry(s, key, es[n]);
      assert r.emitted[..|s.emitted|] == s.emitted;
      assert asked + EntryStrings(key, es[n]) == {CATEGORY} + StreamStrings(r.emitted);
    }
  }

  lemma {:induction false} MoveThreadBudgeted(r: ReconState, key: ThreadKey, t: ThreadState)
    requires StreamInv(r.stream) && Budgeted(r.stream)
    ensures Budgeted(MoveThread(r, key, t).stream)
  {
    hide StreamInv, Budgeted, EmitEntries;
    EmitEntriesBudgeted(r.stream, key, Delta(ThreadOf(r, key), t));
  }

  lemma {:induction false} ProcessAllBudgeted(r: ReconState, events: seq<Event>)
    requires StreamInv(r.stream) && Budgeted(r.stream)
    ensures Budgeted(ProcessAll(r, events).stream)
    decreases |events|
  {
    hide StreamInv, Budgeted, MoveThread, Step;
    if events != [] {
      var n := |events| - 1;
      ProcessAllBudgeted(r, events[..n]);
      var s := ProcessAll(r, events[..n]);
      if events[n].Relevant() {
        var base := if s.base.Some? then s.base.value else events[n].Time();
        MoveThreadBudgeted(s.(base := Some(base)), events[n].Key(),
          Step(ThreadOf(s, events[n].Key()), base, events[n]));
      }
    }
  }

  lemma {:induction false} FinishAllBudgeted(r: ReconState, order: seq<ThreadKey>)
    requires StreamInv(r.stream) && Budgeted(r.stream)
    ensures Budgeted(FinishAll(r, order).stream)
    decreases |order|
  {
    hide StreamInv, Budgeted, MoveThread, FinishThread;
    if order != [] {
      var n := |order| - 1;
      FinishAllBudgeted(r, order[..n]);
      var s := FinishAll(r, order[..n]);
      MoveThreadBudgeted(s, order[n], FinishThread(ThreadOf(s, order[n])));
    }
  }
}
