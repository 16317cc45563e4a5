/** From log entries to event records: the symbol cache of the reconstructor on top of the writer's
    tables, and what a reader of the records sees. */
module EventStream {
  import opened Texts
  import opened Records
  import opened Reader
  import opened ThreadMachine
  import opened WriterTables
  import opened ShortenSymbol

  /** A log entry together with the thread it belongs to. */
  datatype Emission = Emission(key: ThreadKey, entry: Entry)

  /** `earlier` are the events the writer held before the reconstructor was set up on it. */
  datatype StreamState = StreamState(
    writer: WriterState,
    categoryId: Word16,
    cache: map<Text, Word16>,
    earlier: seq<TraceEvent>,
    emitted: seq<Emission>)

  const CATEGORY: Text := "trace"
  const BEGIN_TYPE: Word8 := 2
  const END_TYPE: Word8 := 3

  // ----- Invariant --------------------------------------------------------------------------

  /** The id always resolves; to `text`, unless it is 1 and there are more strings than ids. */
  predicate Names(strings: map<nat, Text>, id: Word16, text: Text, roomy: bool) {
    id <= MAX_STRING_ID && ResolveString(strings, id).Some? &&
    (id != 1 || roomy ==> ResolveString(strings, id) == Some(Truncate(text)))
  }

  predicate CacheOk(strings: map<nat, Text>, cache: map<Text, Word16>, roomy: bool) {
    forall raw :: raw in cache ==> Names(strings, cache[raw], Shorten(raw), roomy)
  }

  function TypeOf(p: Phase): Word8 {
    if p == Begin then BEGIN_TYPE else END_TYPE
  }

  /** The event shows the emission: its own thread, type and time, and the cached id of its symbol. A
      name resolves to its own text unless its id is 1 and there had been more strings than ids. */
  predicate Shows(ev: TraceEvent, em: Emission, cache: map<Text, Word16>, categoryId: Word16) {
    && ev.eventType == (match em.entry.phase case Begin => 2 case Close => 3)
    && ev.thread == Some(em.key)
    && ev.timestamp == em.entry.time
    && em.entry.symbol in cache && ev.nameRef == cache[em.entry.symbol]
    && ev.name.Some? && (ev.nameRef != 1 || ev.bound <= 32767 ==>
      ev.name == Some(Truncate(Shorten(em.entry.symbol))))
    && ev.categoryRef == categoryId
    && ev.category.Some? && (categoryId != 1 || ev.bound <= 32767 ==> ev.category == Some("trace"))
  }

  predicate ShowsAll(events: seq<TraceEvent>, emitted: seq<Emission>, cache: map<Text, Word16>, categoryId: Word16) {
    |events| == |emitted| &&
    forall i :: 0 <= i < |events| ==> Shows(events[i], emitted[i], cache, categoryId)
  }

  /** What the reader has met since the reconstructor was set up. */
  predicate StreamInv(st: StreamState) {
    var rd := Read(st.writer.records);
    var roomy := Roomy(st.writer);
    && Inv(st.writer)
    && Names(rd.strings, st.categoryId, CATEGORY, roomy)
    && CacheOk(rd.strings, st.cache, roomy)
    && |st.earlier| <= |rd.events| && rd.events[..|st.earlier|] == st.earlier
    && ShowsAll(rd.events[|st.earlier|..], st.emitted, st.cache, st.categoryId)
  }

  // ----- Emitting -----------------------------------------------------------------------------

  ghost function InternSymbol(st: StreamState, raw: Text): (r: (StreamState, Word16))
    requires StreamInv(st)
  {
    if raw in st.cache then (st, st.cache[raw])
    else
      var (w, id) := Intern(st.writer, Shorten(raw));
      (st.(writer := w, cache := st.cache[raw := id]), id)
  }

  ghost function WithThread(st: StreamState, key: ThreadKey): StreamState
    requires StreamInv(st)
  {
    st.(writer := EnsureThread(st.writer, key))
  }

  function Write(st: StreamState, key: ThreadKey, e: Entry, nameRef: Word16): StreamState
    requires key in st.writer.threads
  {
    st.(writer := WriteEvent(st.writer, TypeOf(e.phase), st.writer.threads[key], st.categoryId, nameRef, e.time),
        emitted := st.emitted + [Emission(key, e)])
  }

  ghost function EmitEntry(st: StreamState, key: ThreadKey, e: Entry): (r: StreamState)
    requires StreamInv(st)
    ensures StreamInv(r)
    ensures r.emitted == st.emitted + [Emission(key, e)]
    ensures r.earlier == st.earlier && r.categoryId == st.categoryId
  {
    InternSymbolInv(st, e.symbol);
    var (a, id) := InternSymbol(st, e.symbol);
    WithThreadInv(a, key);
    var b := WithThread(a, key);
    WriteInv(b, key, e, id);
    Write(b, key, e, id)
  }

  ghost function EmitEntries(st: StreamState, key: ThreadKey, es: seq<Entry>): (r: StreamState)
    requires StreamInv(st)
    ensures StreamInv(r)
    decreases |es|
  {
    if es == [] then st else EmitEntry(EmitEntries(st, key, es[..|es| - 1]), key, es[|es| - 1])
  }

  // ----- The invariant is kept ------------------------------------------------------------------

  /** The writer moves on without a new event. */
  lemma {:induction false} StreamAdvances(st: StreamState, w: WriterState)
    requires StreamInv(st) && Inv(w) && Advances(st.writer, w, Roomy(w))
    ensures StreamInv(st.(writer := w))
  {
    hide Inv, Read, Bindings;
    RoomyBefore(st.writer, w, Roomy(w));
    NamesKept(st.writer, w, st.categoryId, CATEGORY);
    forall raw | raw in st.cache
      ensures Names(Read(w.records).strings, st.cache[raw], Shorten(raw), Roomy(w))
    {
      NamesKept(st.writer, w, st.cache[raw], Shorten(raw));
    }
  }

  lemma {:induction false} NamesKept(w: WriterState, v: WriterState, id: Word16, text: Text)
    requires Inv(v) && Advances(w, v, Roomy(v)) && Names(Read(w.records).strings, id, text, Roomy(w))
    ensures Names(Read(v.records).strings, id, text, Roomy(v))
  {
    hide Read, Bindings;
    RoomyBefore(w, v, Roomy(v));
    if id == 1 {
      IdOneStays(w, v);
    }
  }

  /** Once id 1 is taken it stays taken. */
  lemma {:induction false} IdOneStays(w: WriterState, v: WriterState)
    requires Inv(v) && w.records <= v.records && 1 in Read(w.records).strings
    ensures 1 in Read(v.records).strings
  {
    KeyStays(w.records, v.records, 1);
  }

  lemma {:induction false} KeyStays(a: seq<Record>, b: seq<Record>, id: nat)
    requires a <= b && id in Read(a).strings
    ensures id in Read(b).strings
    decreases |b|
  {
    if |a| == |b| {
      assert a == b;
    } else {
      assert a <= b[..|b| - 1];
      KeyStays(a, b[..|b| - 1], id);
    }
  }

  lemma {:induction false} ShowsKept(events: seq<TraceEvent>, emitted: seq<Emission>, cache: map<Text, Word16>,
      cache': map<Text, Word16>,
      categoryId: Word16)
    requires ShowsAll(events, emitted, cache, categoryId)
    requires forall raw :: raw in cache ==> raw in cache' && cache'[raw] == cache[raw]
    ensures ShowsAll(events, emitted, cache', categoryId)
  {
  }

  lemma {:induction false} InternSymbolInv(st: StreamState, raw: Text)
    requires StreamInv(st)
    ensures var (r, id) := InternSymbol(st, raw);
            StreamInv(r) && r.emitted == st.emitted && raw in r.cache && r.cache[raw] == id &&
            (forall other :: other in st.cache ==> other in r.cache && r.cache[other] == st.cache[other])
  {
    if raw !in st.cache {
      hide Inv, Intern, Advances, Read, Roomy, Shorten;
      InternRoomy(st.writer, Shorten(raw));
      var (w, id) := Intern(st.writer, Shorten(raw));
      StreamAdvances(st, w);
      var m := st.(writer := w);
      var r := m.(cache := st.cache[raw := id]);
      ShowsKept(Read(w.records).events[|st.earlier|..], st.emitted, st.cache, r.cache, st.categoryId);
    }
  }

  lemma {:induction false} WithThreadInv(st: StreamState, key: ThreadKey)
    requires StreamInv(st)
    ensures var r := WithThread(st, key);
            StreamInv(r) && key in r.writer.threads &&
            r.writer.threads[key] in Read(r.writer.records).threads &&
            Read(r.writer.records).threads[r.writer.threads[key]] == key
  {
    hide Inv, Advances, Read, Roomy, EnsureThread;
    EnsureThreadInv(st.writer, key);
    StreamAdvances(st, EnsureThread(st.writer, key));
  }

  lemma {:induction false} WriteInv(st: StreamState, key: ThreadKey, e: Entry, nameRef: Word16)
    requires StreamInv(st) && e.symbol in st.cache && st.cache[e.symbol] == nameRef
    requires key in st.writer.threads && st.writer.threads[key] in Read(st.writer.records).threads
    requires Read(st.writer.records).threads[st.writer.threads[key]] == key
    ensures StreamInv(Write(st, key, e, nameRef))
  {
    hide Inv, Shorten, Truncate;
    var slot := st.writer.threads[key];
    WriteEventInv(st.writer, TypeOf(e.phase), slot, st.categoryId, nameRef, e.time);
    WriteRoomy(st.writer, TypeOf(e.phase), slot, st.categoryId, nameRef, e.time);
    var rd := Read(st.writer.records);
    var r := Write(st, key, e, nameRef);
    var rd' := Read(r.writer.records);
    var k := |st.earlier|;
    assert rd'.events[k..] == rd.events[k..] + [rd'.events[|rd.events|]];
  }

  lemma {:induction false} WriteRoomy(w: WriterState, eventType: nat, slot: Word8, categoryRef: Word16,
      nameRef: Word16, timestamp: Word64)
    ensures Roomy(WriteEvent(w, eventType, slot, categoryRef, nameRef, timestamp)) == Roomy(w)
  {
    BindingsAppend(w.records, EventRecord(eventType % 16, slot, categoryRef, nameRef, timestamp));
  }

  lemma {:induction false} EmitEntriesAppend(st: StreamState, key: ThreadKey, a: seq<Entry>, b: seq<Entry>)
    requires StreamInv(st)
    ensures EmitEntries(st, key, a + b) == EmitEntries(EmitEntries(st, key, a), key, b)
    decreases |b|
  {
    hide EmitEntry, StreamInv;
    if b == [] {
      assert a + b == a;
    } else {
      assert (a + b)[..|a + b| - 1] == a + b[..|b| - 1];
      EmitEntriesAppend(st, key, a, b[..|b| - 1]);
    }
  }

  // ----- One thread's share ------------------------------------------------------------------

  /** The entries of one thread, in order. */
  function Project(emitted: seq<Emission>, key: ThreadKey): seq<Entry> {
    if emitted == [] then []
    else
      var last := emitted[|emitted| - 1];
      Project(emitted[..|emitted| - 1], key) + (if last.key == key then [last.entry] else [])
  }

  lemma {:induction false} EmitEntriesProject(st: StreamState, key: ThreadKey, es: seq<Entry>, other: ThreadKey)
    requires StreamInv(st)
    ensures var r := EmitEntries(st, key, es);
            Project(r.emitted, other) == Project(st.emitted, other) + (if other == key then es else []) &&
            r.earlier == st.earlier && r.categoryId == st.categoryId
    decreases |es|
  {
    hide StreamInv, EmitEntry;
    if es != [] {
      var before := EmitEntries(st, key, es[..|es| - 1]);
      EmitEntriesProject(st, key, es[..|es| - 1], other);
      var after := EmitEntry(before, key, es[|es| - 1]);
      assert after.emitted[..|after.emitted| - 1] == before.emitted;
      assert es == es[..|es| - 1] + [es[|es| - 1]];
    }
  }

  // ----- What is written stays written ------------------------------------------------------------

  lemma {:induction false} SymbolAppends(st: StreamState, raw: Text)
    requires StreamInv(st)
    ensures st.writer.records <= InternSymbol(st, raw).0.writer.records
  {
    hide Inv, Intern, Read, Roomy, Shorten, ShowsAll, Names, CacheOk;
    if raw !in st.cache {
      InternRoomy(st.writer, Shorten(raw));
    }
  }

  lemma {:induction false} EntryAppends(st: StreamState, key: ThreadKey, e: Entry)
    requires StreamInv(st)
    ensures st.writer.records <= EmitEntry(st, key, e).writer.records
  {
    hide Inv, Read, Roomy, EnsureThread, InternSymbol, ShowsAll, Names, CacheOk;
    InternSymbolInv(st, e.symbol);
    SymbolAppends(st, e.symbol);
    var (a, id) := InternSymbol(st, e.symbol);
    EnsureThreadInv(a.writer, key);
    WithThreadInv(a, key);
  }

  lemma {:induction false} EntriesAppend(st: StreamState, key: ThreadKey, es: seq<Entry>)
    requires StreamInv(st)
    ensures st.writer.records <= EmitEntries(st, key, es).writer.records
    decreases |es|
  {
    hide StreamInv, EmitEntry;
    if es != [] {
      var n := |es| - 1;
      EntriesAppend(st, key, es[..n]);
      EntryAppends(EmitEntries(st, key, es[..n]), key, es[n]);
    }
  }
}
