/** What becomes of the category and of the names of processes and threads: all are as given while ids
    last, and the first string too many takes its id from the category. */
module TraceNames {
  import opened Texts
  import opened TextSearch
  import opened ThreadMachine
  import opened ShortenSymbol
  import opened Records
  import opened Reader
  import opened WriterTables
  import opened EventStream

  // ----- The category's id ----------------------------------------------------------------------

  /** While ids last the category has id 1 and each id was bound once; afterwards it has lost its id. */
  predicate CategoryHeld(w: WriterState) {
    if Roomy(w) then CATEGORY in w.strings && w.strings[CATEGORY] == 1 && Bindings(w.records) == w.nextStringId - 1
    else CATEGORY !in w.strings
  }

  lemma {:induction false} EmitHeld(w: WriterState, r: Record)
    requires CategoryHeld(w) && !r.StringRecord?
    ensures CategoryHeld(Emit(w, r))
  {
    BindingsAppend(w.records, r);
  }

  lemma {:induction false} InternHeld(w: WriterState, s: Text)
    requires Tables(w) && CategoryHeld(w) && (Roomy(w) || s != CATEGORY)
    ensures CategoryHeld(Intern(w, s).0)
  {
    hide Bindings, Truncate;
    if s != [] && s !in w.strings {
      var (v, id) := Intern(w, s);
      BindingsAppend(w.records, StringRecord(id, Truncate(s)));
      assert v.records == w.records + [StringRecord(id, Truncate(s))];
      if Full(w) {
        FullIsNonempty(w);
        VictimHasIdOne(w);
      }
    }
  }

  lemma {:induction false} NameProcessHeld(w: WriterState, pid: Word64, name: Text)
    requires Tables(w) && CategoryHeld(w) && name != CATEGORY
    ensures CategoryHeld(NameProcess(w, pid, name))
  {
    hide Tables, Intern, CategoryHeld;
    InternHeld(w, name);
    var (v, id) := Intern(w, name);
    EmitHeld(v, ProcessObject(pid, id));
  }

  lemma {:induction false} NameThreadHeld(w: WriterState, key: ThreadKey, name: Text)
    requires Tables(w) && CategoryHeld(w) && name != CATEGORY
    ensures CategoryHeld(NameThread(w, key, name))
  {
    hide Tables, Intern, CategoryHeld;
    InternHeld(w, name);
    InternTables(w, name);
    var (v, id) := Intern(w, name);
    InternHeld(v, PROCESS);
    var (u, argument) := Intern(v, PROCESS);
    EmitHeld(u, ThreadObject(key.tid, id, argument, key.pid));
  }

  lemma {:induction false} LabelsDiffer(key: ThreadKey)
    ensures ProcessLabel(key.pid) != CATEGORY && ThreadLabel(key.tid) != CATEGORY
  {
    assert ProcessLabel(key.pid)[0] == '[' && ThreadLabel(key.tid)[0] == '[';
  }

  lemma {:induction false} EnsureThreadHeld(w: WriterState, key: ThreadKey)
    requires Inv(w) && CategoryHeld(w)
    ensures Tables(w) && CategoryHeld(EnsureThread(w, key))
  {
    hide Inv, Tables, NameProcess, NameThread, CategoryHeld, ProcessLabel, ThreadLabel, Vacate;
    InvTables(w);
    if key in w.threads {
      KnownThread(w, key);
    } else {
      AssignInv(w, key);
      var a := AssignSlot(w, key);
      AssignHeld(w, key);
      LabelsDiffer(key);
      var b := a;
      var m := NoteProcess(a, key.pid);
      InvTables(a);
      InvTables(m);
      if key.pid !in w.named {
        SameHeld(a, m);
        NameProcessHeld(m, key.pid, ProcessLabel(key.pid));
        NameProcessInv(m, key.pid, ProcessLabel(key.pid));
        b := NameProcess(m, key.pid, ProcessLabel(key.pid));
        InvTables(b);
      }
      NameThreadHeld(b, key, ThreadLabel(key.tid));
      NewThread(w, a, b, key);
    }
  }

  lemma {:induction false} AssignHeld(w: WriterState, key: ThreadKey)
    requires CategoryHeld(w)
    ensures CategoryHeld(AssignSlot(w, key))
  {
    EmitHeld(w, ThreadRecord(NextSlot(w), key.pid, key.tid));
  }

  lemma {:induction false} SameHeld(w: WriterState, v: WriterState)
    requires CategoryHeld(w) && v.strings == w.strings && v.nextStringId == w.nextStringId && v.records == w.records
    ensures CategoryHeld(v)
  {
  }

  /** Once it has lost its id, an event that refers to id 1 does not show the category. */
  lemma {:induction false} LostCategory(w: WriterState)
    requires Inv(w) && CategoryHeld(w) && !Roomy(w)
    ensures ResolveString(Read(w.records).strings, 1) != Some(CATEGORY)
  {
    hide Read, Roomy, Tables, Slots, MirrorsThreads, BoundOnce, IdsBelow, AllWellFormed;
    if 1 in Read(w.records).strings {
      var s := Owner(w.strings, 1);
      assert s != CATEGORY && |CATEGORY| == 5;
    }
  }

  // ----- The category of every event ------------------------------------------------------------

  /** Every event shows the category. */
  predicate Categorised(events: seq<TraceEvent>) {
    forall i :: 0 <= i < |events| ==> events[i].category == Some("trace")
  }

  /** One event more, with what its references resolve to. */
  predicate AddsEvent(before: ReaderState, after: ReaderState, nameRef: Word16, categoryRef: Word16) {
    |after.events| == |before.events| + 1 && after.events[..|before.events|] == before.events &&
    var shown := after.events[|before.events|];
    shown.nameRef == nameRef && shown.name == ResolveString(before.strings, nameRef) &&
    shown.category == ResolveString(before.strings, categoryRef)
  }

  /** The event an entry is written as. */
  lemma {:induction false} EmitEntryEvent(st: StreamState, key: ThreadKey, e: Entry)
    returns (b: StreamState, id: Word16)
    requires StreamInv(st)
    ensures StreamInv(b) && Inv(b.writer) && b.categoryId == st.categoryId
    ensures StreamInv(InternSymbol(st, e.symbol).0)
    ensures b == WithThread(InternSymbol(st, e.symbol).0, key) && id == InternSymbol(st, e.symbol).1
    ensures Read(b.writer.records).events == Read(st.writer.records).events
    ensures AddsEvent(Read(b.writer.records), Read(EmitEntry(st, key, e).writer.records), id, st.categoryId)
  {
    hide Read, Inv, Intern, EnsureThread, Shorten, Advances, Roomy, ShowsAll, Names, CacheOk;
    InternSymbolInv(st, e.symbol);
    var (a, i) := InternSymbol(st, e.symbol);
    id := i;
    InternSymbolEvents(st, e.symbol);
    WithThreadInv(a, key);
    b := WithThread(a, key);
    EnsureThreadEvents(a.writer, key);
    WriteEventInv(b.writer, TypeOf(e.phase), b.writer.threads[key], b.categoryId, id, e.time);
  }

  lemma {:induction false} InternSymbolEvents(st: StreamState, raw: Text)
    requires StreamInv(st)
    ensures Read(InternSymbol(st, raw).0.writer.records).events == Read(st.writer.records).events
  {
    hide Read, Inv, Intern, Shorten, ShowsAll, Names, CacheOk;
    if raw !in st.cache {
      InternInv(st.writer, Shorten(raw));
    }
  }

  lemma {:induction false} EnsureThreadEvents(w: WriterState, key: ThreadKey)
    requires Inv(w)
    ensures Tables(w) && Read(EnsureThread(w, key).records).events == Read(w.records).events
  {
    hide Read, Inv, EnsureThread, Roomy;
    EnsureThreadInv(w, key);
  }

  /** Either ids have lasted and the category has its own, or some event shows another. */
  ghost predicate CategoryTold(st: StreamState) {
    st.categoryId == 1 &&
    ((Roomy(st.writer) && CategoryHeld(st.writer)) || !Categorised(Read(st.writer.records).events))
  }

  /** The entry that needs one string too many is written without its category. */
  lemma {:induction false} EmitEntryCategory(st: StreamState, key: ThreadKey, e: Entry)
    requires StreamInv(st) && CategoryTold(st)
    ensures CategoryTold(EmitEntry(st, key, e))
  {
    hide Read, StreamInv, EmitEntry, InternSymbol, WithThread, CategoryHeld, Roomy;
    var b, id := EmitEntryEvent(st, key, e);
    var before, after := Read(st.writer.records).events, Read(EmitEntry(st, key, e).writer.records).events;
    EmitEntryKeeps(st, key, e);
    if !Categorised(before) {
      var i :| 0 <= i < |before| && before[i].category != Some(CATEGORY);
      assert after[..|before|][i] == before[i];
    } else {
      BeforeHeld(st, key, e.symbol);
      EntryHeld(st, key, e);
      if !Roomy(b.writer) {
        LostCategory(b.writer);
      }
    }
  }

  lemma {:induction false} EmitEntryKeeps(st: StreamState, key: ThreadKey, e: Entry)
    requires StreamInv(st)
    ensures EmitEntry(st, key, e).categoryId == st.categoryId
  {
  }

  lemma {:induction false} BeforeHeld(st: StreamState, key: ThreadKey, raw: Text)
    requires StreamInv(st) && Roomy(st.writer) && CategoryHeld(st.writer)
    ensures StreamInv(InternSymbol(st, raw).0) && CategoryHeld(WithThread(InternSymbol(st, raw).0, key).writer)
  {
    hide Read, StreamInv, Intern, EnsureThread, CategoryHeld, Roomy, Shorten;
    InternSymbolInv(st, raw);
    StreamTables(st);
    var a := InternSymbol(st, raw).0;
    StreamTables(a);
    if raw !in st.cache {
      InternHeld(st.writer, Shorten(raw));
    }
    EnsureThreadHeld(a.writer, key);
  }

  lemma {:induction false} StreamTables(st: StreamState)
    requires StreamInv(st)
    ensures Inv(st.writer) && Tables(st.writer)
  {
  }

  lemma {:induction false} EntryHeld(st: StreamState, key: ThreadKey, e: Entry)
    requires StreamInv(st) && StreamInv(InternSymbol(st, e.symbol).0)
    requires CategoryHeld(WithThread(InternSymbol(st, e.symbol).0, key).writer)
    ensures CategoryHeld(EmitEntry(st, key, e).writer)
    ensures Roomy(EmitEntry(st, key, e).writer) == Roomy(WithThread(InternSymbol(st, e.symbol).0, key).writer)
  {
    hide Read, StreamInv, InternSymbol, WithThread, CategoryHeld, Roomy;
    InternSymbolInv(st, e.symbol);
    var (a, id) := InternSymbol(st, e.symbol);
    WithThreadInv(a, key);
    var b := WithThread(a, key);
    EmitHeld(b.writer, EventRecord(TypeOf(e.phase) % 16, b.writer.threads[key], b.categoryId, id, e.time));
    WriteRoomy(b.writer, TypeOf(e.phase), b.writer.threads[key], b.categoryId, id, e.time);
  }

  /** For names alone one string too many may do no harm: when a new symbol of a known thread takes the
      category's id, its event has its own name, and only the category is another. */
  lemma {:induction false} NameOutlivesCategory(st: StreamState, key: ThreadKey, e: Entry)
    requires StreamInv(st) && st.categoryId == 1 && Roomy(st.writer) && CategoryHeld(st.writer)
    requires key in st.writer.threads && e.symbol !in st.cache && Evicts(st.writer, Shorten(e.symbol))
    ensures var after := Read(EmitEntry(st, key, e).writer.records).events;
            after != [] && var shown := after[|after| - 1];
            shown.name == Some(Truncate(Shorten(e.symbol))) && shown.category != Some(CATEGORY) &&
            shown.nameRef == 1 && !Roomy(EmitEntry(st, key, e).writer)
  {
    hide Read, Inv, Intern, EnsureThread, CategoryHeld, Roomy, Shorten, Evicts, ShowsAll, Names, CacheOk, EmitEntry;
    var b, id := EmitEntryEvent(st, key, e);
    StreamTables(st);
    InternInv(st.writer, Shorten(e.symbol));
    var (w, i) := Intern(st.writer, Shorten(e.symbol));
    InvTables(w);
    KnownThread(w, key);
    InternHeld(st.writer, Shorten(e.symbol));
    LostCategory(w);
    EntryHeld(st, key, e);
  }

  // ----- The labels -----------------------------------------------------------------------------

  lemma {:induction false} DecimalLength(n: nat, k: nat)
    requires n < Pow10(k) && k > 0
    ensures |Decimal(n)| <= k
    decreases k
  {
    assert Pow10(1) == 10 * Pow10(0) == 10;
    if k > 1 && n >= 10 {
      DecimalLength(n / 10, k - 1);
    }
  }

  lemma {:induction false} LabelsShort(key: ThreadKey)
    ensures Truncate(ProcessLabel(key.pid)) == ProcessLabel(key.pid)
    ensures Truncate(ThreadLabel(key.tid)) == ThreadLabel(key.tid)
  {
    assert Pow10(5) == 100_000;
    assert Pow10(10) == 100_000 * 100_000;
    assert Pow10(15) == 100_000 * 100_000 * 100_000;
    assert Pow10(20) == 100_000 * 100_000 * 100_000 * 100_000;
    DecimalLength(key.pid, 20);
    DecimalLength(key.tid, 20);
  }

  /** The name is the number in decimal, between the opening and a bracket. */
  predicate Tells(name: Option<Text>, opening: Text, n: nat) {
    match name
    case None => false
    case Some(text) =>
      |opening| + 1 < |text| && text[..|opening|] == opening && text[|text| - 1] == ']' &&
      var digits := text[|opening|..|text| - 1];
      (forall i :: 0 <= i < |digits| ==> IsDigit(digits[i])) && ValueOf(digits, 10) == n &&
      (digits[0] == '0' ==> digits == "0")
  }

  lemma {:induction false} NoLeadingZero(n: nat)
    ensures Decimal(n)[0] == '0' ==> n == 0
    decreases n
  {
    if n >= 10 {
      DecimalValue(n / 10);
      NoLeadingZero(n / 10);
    }
  }

  lemma {:induction false} LabelTells(opening: Text, n: nat)
    ensures Tells(Some(opening + Decimal(n) + "]"), opening, n)
  {
    hide Decimal, ValueOf;
    DecimalValue(n);
    NoLeadingZero(n);
    var text := opening + Decimal(n) + "]";
    assert text[|opening|..|text| - 1] == Decimal(n);
    assert Decimal(0) == "0" by { Zero(); }
  }

  lemma {:induction false} Zero()
    ensures Decimal(0) == "0"
  {
  }

  predicate ProcessShown(rs: seq<Record>, pid: Word64) {
    pid in ProcessNames(rs) && ProcessNames(rs)[pid] == Some(ProcessLabel(pid))
  }

  predicate ThreadShown(rs: seq<Record>, key: ThreadKey) {
    key in ThreadNames(rs) && ThreadNames(rs)[key] == Some(ThreadLabel(key.tid)) && ProcessShown(rs, key.pid)
  }

  /** The reader shows the thread by its number, and its process by its own. */
  predicate ThreadTold(rs: seq<Record>, key: ThreadKey) {
    key in ThreadNames(rs) && Tells(ThreadNames(rs)[key], "[tid=", key.tid) &&
    key.pid in ProcessNames(rs) && Tells(ProcessNames(rs)[key.pid], "[pid=", key.pid)
  }

  lemma {:induction false} ShownTells(rs: seq<Record>, key: ThreadKey)
    requires ThreadShown(rs, key)
    ensures ThreadTold(rs, key)
  {
    hide ThreadNames, ProcessNames, Tells;
    LabelTells("[tid=", key.tid);
    LabelTells("[pid=", key.pid);
  }

  /** Whatever was shown still is. */
  ghost predicate KeepsShown(a: seq<Record>, b: seq<Record>) {
    (forall pid :: ProcessShown(a, pid) ==> ProcessShown(b, pid)) &&
    (forall key :: ThreadShown(a, key) ==> ThreadShown(b, key))
  }

  lemma {:induction false} InternShown(w: WriterState, s: Text)
    requires Tables(w)
    ensures ProcessNames(Intern(w, s).0.records) == ProcessNames(w.records)
    ensures ThreadNames(Intern(w, s).0.records) == ThreadNames(w.records)
  {
    hide ProcessNames, ThreadNames, Read, Tables;
    var (v, id) := Intern(w, s);
    if v != w {
      NamesAppend(w.records, StringRecord(id, Truncate(s)));
    }
  }

  lemma {:induction false} NameProcessShown(w: WriterState, pid: Word64)
    requires Inv(w)
    ensures Tables(w)
    ensures var v := NameProcess(w, pid, ProcessLabel(pid));
            ProcessShown(v.records, pid) && KeepsShown(w.records, v.records)
  {
    hide ProcessNames, ThreadNames, Read, Inv, Intern, ProcessLabel, ThreadLabel, Truncate, Roomy;
    InvTables(w);
    NameProcessInv(w, pid, ProcessLabel(pid));
    InternShown(w, ProcessLabel(pid));
    var (u, id) := Intern(w, ProcessLabel(pid));
    NamesAppend(u.records, ProcessObject(pid, id));
    LabelsShort(ThreadKey(pid, 0));
  }

  lemma {:induction false} NameThreadShown(w: WriterState, key: ThreadKey)
    requires Inv(w) && ProcessShown(w.records, key.pid)
    ensures Tables(w)
    ensures var v := NameThread(w, key, ThreadLabel(key.tid));
            Roomy(v) ==> ThreadShown(v.records, key) && KeepsShown(w.records, v.records)
  {
    hide ProcessNames, ThreadNames, Read, Inv, Intern, ProcessLabel, ThreadLabel, Truncate, Roomy, Evicts;
    var itsLabel := ThreadLabel(key.tid);
    ThreadNameResolves(w, key, itsLabel);
    NameThreadInv(w, key, itsLabel);
    InternInv(w, itsLabel);
    var (u, id) := Intern(w, itsLabel);
    InternInv(u, PROCESS);
    var (x, argument) := Intern(u, PROCESS);
    InternShown(w, itsLabel);
    InternShown(u, PROCESS);
    var v := NameThread(w, key, itsLabel);
    NamesAppend(x.records, ThreadObject(key.tid, id, argument, key.pid));
    if Roomy(v) {
      BindingsAppend(x.records, ThreadObject(key.tid, id, argument, key.pid));
      SameRoomy(x, v);
    }
    LabelsShort(key);
  }

  lemma {:induction false} SameRoomy(x: WriterState, v: WriterState)
    requires Bindings(v.records) == Bindings(x.records)
    ensures Roomy(v) == Roomy(x)
  {
  }

  /** Registered threads and named processes are shown by name, as long as ids last. */
  predicate TablesShown(w: WriterState) {
    Roomy(w) ==>
      (forall pid :: pid in w.named ==> ProcessShown(w.records, pid)) &&
      (forall key :: key in w.threads ==> ThreadShown(w.records, key))
  }

  lemma {:induction false} AssignShown(w: WriterState, key: ThreadKey)
    requires Inv(w)
    ensures var a := AssignSlot(w, key);
            ProcessNames(a.records) == ProcessNames(w.records) && ThreadNames(a.records) == ThreadNames(w.records) &&
            a.named == w.named && a.threads.Keys <= w.threads.Keys + {key} && (Roomy(a) <==> Roomy(w))
  {
    hide ProcessNames, ThreadNames, Read, Inv, Bindings;
    NamesAppend(w.records, ThreadRecord(NextSlot(w), key.pid, key.tid));
    BindingsAppend(w.records, ThreadRecord(NextSlot(w), key.pid, key.tid));
  }

  lemma {:induction false} EnsureThreadShown(w: WriterState, key: ThreadKey)
    requires Inv(w) && TablesShown(w)
    ensures Tables(w)
    ensures var v := EnsureThread(w, key);
            TablesShown(v) && key in v.threads && (Roomy(v) ==> KeepsShown(w.records, v.records))
  {
    hide ProcessNames, ThreadNames, Read, Inv, NameProcess, NameThread, AssignSlot, ProcessShown, ThreadShown;
    hide Roomy, ProcessLabel, ThreadLabel, EnsureThread;
    EnsureThreadInv(w, key);
    var v := EnsureThread(w, key);
    if key in w.threads {
      KnownThread(w, key);
    } else {
      AssignInv(w, key);
      AssignShown(w, key);
      var a := AssignSlot(w, key);
      var m := NoteProcess(a, key.pid);
      InvTables(m);
      var b := ProcessNamed(w, a, m, key);
      InvTables(b);
      NewThread(w, a, b, key);
      NameThreadInv(b, key, ThreadLabel(key.tid));
      if Roomy(v) {
        RoomyBefore(b, v, Roomy(v));
        NameThreadShown(b, key);
        SameNames(w, a);
      }
    }
  }

  /** The process of a new thread is named now if it was not before. */
  lemma {:induction false} ProcessNamed(w: WriterState, a: WriterState, m: WriterState, key: ThreadKey)
    returns (b: WriterState)
    requires TablesShown(w) && Inv(a) && Inv(m) && Tables(m) && m == a.(named := a.named + {key.pid})
    requires ProcessNames(a.records) == ProcessNames(w.records) && ThreadNames(a.records) == ThreadNames(w.records)
    requires a.named == w.named && (Roomy(a) <==> Roomy(w))
    ensures b == if key.pid in a.named then a else NameProcess(m, key.pid, ProcessLabel(key.pid))
    ensures Inv(b) && b.threads == a.threads && b.named == a.named + {key.pid}
    ensures Roomy(b) ==> Roomy(w) && ProcessShown(b.records, key.pid) && KeepsShown(w.records, b.records)
  {
    hide ProcessNames, ThreadNames, Read, Inv, NameProcess, ProcessLabel, ThreadLabel, Bindings;
    if key.pid in a.named {
      b := a;
      assert a.named + {key.pid} == a.named;
    } else {
      b := NameProcess(m, key.pid, ProcessLabel(key.pid));
      NameProcessInv(m, key.pid, ProcessLabel(key.pid));
      NameProcessShown(m, key.pid);
      RoomyBefore(m, b, Roomy(b));
      SameNames(w, a);
    }
  }

  lemma {:induction false} SameNames(w: WriterState, a: WriterState)
    requires ProcessNames(a.records) == ProcessNames(w.records) && ThreadNames(a.records) == ThreadNames(w.records)
    ensures KeepsShown(w.records, a.records)
  {
  }

  /** Every thread that has an event is shown by name, as long as ids last. */
  predicate LabelsTold(st: StreamState) {
    TablesShown(st.writer) &&
    (Roomy(st.writer) ==> forall i :: 0 <= i < |st.emitted| ==> ThreadShown(st.writer.records, st.emitted[i].key))
  }

  lemma {:induction false} EmitEntryLabels(st: StreamState, key: ThreadKey, e: Entry)
    requires StreamInv(st) && LabelsTold(st)
    ensures LabelsTold(EmitEntry(st, key, e))
  {
    hide Read, StreamInv, EmitEntry, ThreadShown, ProcessShown, KeepsShown, Roomy, EnsureThread, InternSymbol, Shorten;
    InternSymbolInv(st, e.symbol);
    var (a, id) := InternSymbol(st, e.symbol);
    SymbolLabels(st, e.symbol);
    StreamTables(a);
    EnsureThreadShown(a.writer, key);
    EnsureThreadInv(a.writer, key);
    WithThreadInv(a, key);
    var b := WithThread(a, key);
    RoomyBefore(a.writer, b.writer, Roomy(b.writer));
    EventShown(a, b, key, e, id);
    EmitEntryIs(st, key, e);
  }

  lemma {:induction false} EmitEntryIs(st: StreamState, key: ThreadKey, e: Entry)
    requires StreamInv(st)
    ensures StreamInv(InternSymbol(st, e.symbol).0)
    ensures var (a, id) := InternSymbol(st, e.symbol);
            key in WithThread(a, key).writer.threads && EmitEntry(st, key, e) == Write(WithThread(a, key), key, e, id)
  {
    hide Read, StreamInv, InternSymbol, WithThread, Write;
    InternSymbolInv(st, e.symbol);
    WithThreadInv(InternSymbol(st, e.symbol).0, key);
  }

  lemma {:induction false} SymbolLabels(st: StreamState, raw: Text)
    requires StreamInv(st) && LabelsTold(st)
    ensures LabelsTold(InternSymbol(st, raw).0)
  {
    hide ProcessNames, ThreadNames, Read, Inv, Intern, Shorten, Roomy, ShowsAll, Names, CacheOk;
    if raw !in st.cache {
      StreamTables(st);
      InternShown(st.writer, Shorten(raw));
      InternInv(st.writer, Shorten(raw));
      var (w, id) := Intern(st.writer, Shorten(raw));
      RoomyBefore(st.writer, w, !Evicts(st.writer, Shorten(raw)));
    }
  }

  lemma {:induction false} EventShown(a: StreamState, b: StreamState, key: ThreadKey, e: Entry, id: Word16)
    requires LabelsTold(a) && TablesShown(b.writer) && key in b.writer.threads && b.emitted == a.emitted
    requires Roomy(b.writer) ==> Roomy(a.writer) && KeepsShown(a.writer.records, b.writer.records)
    ensures LabelsTold(Write(b, key, e, id))
  {
    hide ProcessNames, ThreadNames, Read, Bindings;
    var r := EventRecord(TypeOf(e.phase) % 16, b.writer.threads[key], b.categoryId, id, e.time);
    NamesAppend(b.writer.records, r);
    BindingsAppend(b.writer.records, r);
    var w := Write(b, key, e, id);
    assert w.writer.records == b.writer.records + [r];
  }
}
