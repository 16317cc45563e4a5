/** Whole runs of the writer: any sequence of calls of its public operations. */
module WriterRuns {
  import opened Texts
  import opened Wire
  import opened Records
  import opened Reader
  import opened WriterTables

  datatype WriterCall =
    | WritePreamble(provider: Text, providerId: Word32, ticks: Word64, baseTicks: Word64, baseTimeNs: Word64)
    | InternString(text: Text)
    | RegisterThread(key: ThreadKey)
    | WriteDuration(eventType: Word8, key: ThreadKey, category: Text, name: Text, timestamp: Word64)
    | WriteEventById(eventType: Word8, threadRef: Word8, categoryRef: Word16, nameRef: Word16, timestamp: Word64)
    | WriteProcessName(pid: Word64, name: Text)
    | WriteThreadName(key: ThreadKey, name: Text)

  function ProviderName(name: Text): (n: Text)
    ensures |n| < 256
  {
    name[..Min(|name|, 255)]
  }

  function Preamble(name: Text, id: Word32, ticks: Word64, baseTicks: Word64, baseTimeNs: Word64): seq<Record> {
    [Magic, ProviderInfo(id, ProviderName(name)), ProviderSection(id), Init(ticks, baseTicks, baseTimeNs)]
  }

  function EmitAll(w: WriterState, rs: seq<Record>): WriterState
    decreases |rs|
  {
    if rs == [] then w else EmitAll(Emit(w, rs[0]), rs[1..])
  }

  /** A duration event by names rather than by ids. */
  ghost function Duration(w: WriterState, eventType: nat, key: ThreadKey, category: Text, name: Text,
      timestamp: Word64): WriterState
    requires Inv(w)
  {
    EnsureThreadInv(w, key);
    var e := EnsureThread(w, key);
    InternInv(e, category);
    var (c, categoryRef) := Intern(e, category);
    var (n, nameRef) := Intern(c, name);
    WriteEvent(n, eventType, e.threads[key], categoryRef, nameRef, timestamp)
  }

  ghost function Perform(w: WriterState, call: WriterCall): WriterState
    requires Inv(w)
  {
    match call
    case WritePreamble(name, id, ticks, baseTicks, baseTimeNs) =>
      EmitAll(w, Preamble(name, id, ticks, baseTicks, baseTimeNs))
    case InternString(text) => Intern(w, text).0
    case RegisterThread(key) => EnsureThread(w, key)
    case WriteDuration(eventType, key, category, name, timestamp) =>
      Duration(w, eventType, key, category, name, timestamp)
    case WriteEventById(eventType, thread, category, name, timestamp) =>
      WriteEvent(w, eventType, thread, category, name, timestamp)
    case WriteProcessName(pid, name) => NameProcess(w, pid, name)
    case WriteThreadName(key, name) => NameThread(w, key, name)
  }

  /** The string table only loses id 1, and none while there are ids enough. */
  predicate KeepsStrings(w: WriterState, v: WriterState) {
    var a, b := Read(w.records).strings, Read(v.records).strings;
    w.records <= v.records &&
    forall id :: id in a && (Roomy(v) || id != 1) ==> id in b && b[id] == a[id]
  }

  lemma {:induction false} KeepsOfAdvances(w: WriterState, v: WriterState, all: bool)
    requires Advances(w, v, all) && (Roomy(v) ==> all)
    ensures KeepsStrings(w, v)
  {
  }

  lemma {:induction false} KeepsTrans(w: WriterState, u: WriterState, v: WriterState)
    requires KeepsStrings(w, u) && KeepsStrings(u, v)
    ensures KeepsStrings(w, v)
  {
    BindingsGrow(u.records, v.records);
  }

  lemma {:induction false} PreambleInv(w: WriterState, rs: seq<Record>)
    requires Inv(w) && AllWellFormed(rs)
    requires forall i :: 0 <= i < |rs| ==> !rs[i].StringRecord? && !rs[i].ThreadRecord? && !rs[i].EventRecord?
    ensures var v := EmitAll(w, rs);
            Inv(v) && KeepsStrings(w, v) && Read(v.records).events == Read(w.records).events
    decreases |rs|
  {
    hide Inv, Advances;
    if rs == [] {
      assert KeepsStrings(w, w);
    } else {
      PlainRecordInv(w, rs[0]);
      KeepsOfAdvances(w, Emit(w, rs[0]), true);
      PreambleInv(Emit(w, rs[0]), rs[1..]);
      KeepsTrans(w, Emit(w, rs[0]), EmitAll(w, rs));
    }
  }

  lemma {:induction false} DurationInv(w: WriterState, eventType: nat, key: ThreadKey, category: Text, name: Text,
      timestamp: Word64)
    requires Inv(w)
    ensures var v := Duration(w, eventType, key, category, name, timestamp);
            Inv(v) && KeepsStrings(w, v)
  {
    hide Inv, Advances, Intern, EnsureThread, KeepsStrings, Roomy;
    EnsureThreadInv(w, key);
    var e := EnsureThread(w, key);
    KeepsOfAdvances(w, e, Roomy(e));
    InternRoomy(e, category);
    var (c, categoryRef) := Intern(e, category);
    KeepsOfAdvances(e, c, Roomy(c));
    InternRoomy(c, name);
    var (n, nameRef) := Intern(c, name);
    KeepsOfAdvances(c, n, Roomy(n));
    var v := WriteEvent(n, eventType, e.threads[key], categoryRef, nameRef, timestamp);
    EventKeeps(n, eventType, e.threads[key], categoryRef, nameRef, timestamp);
    KeepsTrans(w, e, c);
    KeepsTrans(w, c, n);
    KeepsTrans(w, n, v);
  }

  lemma {:induction false} EventKeeps(w: WriterState, eventType: nat, slot: Word8, categoryRef: Word16,
      nameRef: Word16, timestamp: Word64)
    requires Inv(w)
    ensures var v := WriteEvent(w, eventType, slot, categoryRef, nameRef, timestamp);
            Inv(v) && KeepsStrings(w, v)
  {
    hide Inv;
    WriteEventInv(w, eventType, slot, categoryRef, nameRef, timestamp);
  }

  lemma {:induction false} PerformInv(w: WriterState, call: WriterCall)
    requires Inv(w)
    ensures Inv(Perform(w, call)) && KeepsStrings(w, Perform(w, call))
  {
    hide Inv, Advances, Intern, EnsureThread, KeepsStrings, Roomy, Duration, NameProcess, NameThread, WriteEvent;
    var v := Perform(w, call);
    match call
    case WritePreamble(name, id, ticks, baseTicks, baseTimeNs) =>
      PreambleInv(w, Preamble(name, id, ticks, baseTicks, baseTimeNs));
    case InternString(text) => InternRoomy(w, text); KeepsOfAdvances(w, v, Roomy(v));
    case RegisterThread(key) => EnsureThreadInv(w, key); KeepsOfAdvances(w, v, Roomy(v));
    case WriteDuration(eventType, key, category, name, timestamp) =>
      DurationInv(w, eventType, key, category, name, timestamp);
    case WriteEventById(eventType, thread, category, name, timestamp) =>
      EventKeeps(w, eventType, thread, category, name, timestamp);
    case WriteProcessName(pid, name) => NameProcessInv(w, pid, name); KeepsOfAdvances(w, v, Roomy(v));
    case WriteThreadName(key, name) => NameThreadInv(w, key, name); KeepsOfAdvances(w, v, Roomy(v));
  }

  /** `v` is reached from `w` by the calls. */
  ghost predicate Reaches(w: WriterState, calls: seq<WriterCall>, v: WriterState)
    decreases |calls|
  {
    if calls == [] then w == v else Inv(w) && Reaches(Perform(w, calls[0]), calls[1..], v)
  }

  lemma {:induction false} ReachesInv(w: WriterState, calls: seq<WriterCall>, v: WriterState)
    requires Inv(w) && Reaches(w, calls, v)
    ensures Inv(v) && KeepsStrings(w, v)
    decreases |calls|
  {
    hide Inv, Perform, KeepsStrings;
    if calls == [] {
      KeepsOfAdvances(w, v, true) by { AdvancesSelf(w); }
    } else {
      PerformInv(w, calls[0]);
      ReachesInv(Perform(w, calls[0]), calls[1..], v);
      KeepsTrans(w, Perform(w, calls[0]), v);
    }
  }

  // ----- Main results -----------------------------------------------------------------------

  /** After any calls the sink holds whole words that decode to exactly the records emitted, each
      field within its width and no record over 4001 words. */
  lemma {:induction false} AnyRunDecodes(calls: seq<WriterCall>, w: WriterState)
    requires Reaches(NEW_WRITER, calls, w)
    ensures var bytes := EncodeAll(w.records);
            |bytes| % 8 == 0 && DecodeAll(bytes) == Some(w.records) && ReadBytes(bytes) == Some(Read(w.records))
    ensures forall i :: 0 <= i < |w.records| ==>
              Fits(Layout(w.records[i]), Fields(w.records[i])) && 1 <= RSize(w.records[i]) <= MAX_RSIZE
  {
    NewWriterInv();
    ReachesInv(NEW_WRITER, calls, w);
    BytesRoundTrip(w.records);
    forall i | 0 <= i < |w.records|
      ensures Fits(Layout(w.records[i]), Fields(w.records[i])) && 1 <= RSize(w.records[i]) <= MAX_RSIZE
    {
      hide Fits, Fields, Layout;
      FieldsFit(w.records[i]);
    }
  }

  /** After any calls the string table is a bijection onto the ids given out so far, the reader's
      strings are its truncated inverse, and only id 1 has ever been given out twice. */
  lemma {:induction false} AnyRunStrings(calls: seq<WriterCall>, w: WriterState)
    requires Reaches(NEW_WRITER, calls, w)
    ensures forall s, t :: s in w.strings && t in w.strings && w.strings[s] == w.strings[t] ==> s == t
    ensures forall id: Word16 :: id in w.strings.Values <==> 1 <= id < w.nextStringId
    ensures MirrorsStrings(Read(w.records).strings, w.strings)
    ensures BoundOnce(w.records)
  {
    NewWriterInv();
    ReachesInv(NEW_WRITER, calls, w);
    assert Tables(w);
    forall id: Word16 | id in w.strings.Values ensures 1 <= id < w.nextStringId {
      var s := Owner(w.strings, id);
    }
  }

  /** What a reader knows of an id stays so for ever, except for id 1 once there are more strings
      than ids. */
  lemma {:induction false} IdsStable(calls: seq<WriterCall>, w: WriterState, more: seq<WriterCall>, v: WriterState,
      id: nat)
    requires Reaches(NEW_WRITER, calls, w) && Reaches(w, more, v)
    requires id in Read(w.records).strings && (id != 1 || Roomy(v))
    ensures id in Read(v.records).strings && Read(v.records).strings[id] == Read(w.records).strings[id]
  {
    NewWriterInv();
    ReachesInv(NEW_WRITER, calls, w);
    ReachesInv(w, more, v);
  }

  /** Once there are more strings than ids, each new one takes id 1 from the last. */
  lemma {:induction false} FullTableRebindsOne(calls: seq<WriterCall>, w: WriterState, s: Text)
    requires Reaches(NEW_WRITER, calls, w) && Evicts(w, s)
    ensures Inv(w)
    ensures var v := Perform(w, InternString(s));
            v.strings[s] == 1 &&
            Read(v.records).strings == Read(w.records).strings[1 := Truncate(s)] &&
            exists former :: former in w.strings && w.strings[former] == 1 &&
              v.strings == (w.strings - {former})[s := 1]
  {
    NewWriterInv();
    ReachesInv(NEW_WRITER, calls, w);
    EvictTables(w, s);
    VictimHasIdOne(w);
    var former := Victim(w.strings);
    var v := Perform(w, InternString(s));
    assert former in w.strings && w.strings[former] == 1 && v.strings == (w.strings - {former})[s := 1];
    ReadAppend(w.records, StringRecord(1, Truncate(s)));
  }

  /** After any calls the reader's slots are exactly the inverse of the live ones, which lie in
      1..255, so there are at most 255 of them. */
  lemma {:induction false} AnyRunThreads(calls: seq<WriterCall>, w: WriterState)
    requires Reaches(NEW_WRITER, calls, w)
    ensures forall k :: k in w.threads ==> 1 <= w.threads[k] <= 255
    ensures MirrorsThreads(Read(w.records).threads, w.threads)
    ensures |w.threads| <= 255
  {
    NewWriterInv();
    ReachesInv(NEW_WRITER, calls, w);
    InjectiveAtMost(w.threads, 255);
  }

  lemma {:induction false} InjectiveAtMost(m: map<ThreadKey, Word8>, n: nat)
    requires forall k :: k in m ==> 1 <= m[k] <= n
    requires forall k, l :: k in m && l in m && m[k] == m[l] ==> k == l
    ensures |m| <= n
    decreases n
  {
    if n == 0 {
      assert m == map[] by {
        if k :| k in m { assert false; }
      }
    } else if k :| k in m && m[k] == n {
      var rest := m - {k};
      assert m == rest[k := m[k]];
      InjectiveAtMost(rest, n - 1);
      assert m.Keys == rest.Keys + {k};
    } else {
      InjectiveAtMost(m, n - 1);
    }
  }

  /** A duration written by names resolves to its thread and its name, and to its category unless
      interning the name has just taken id 1 from it. */
  lemma {:induction false} DurationResolves(w: WriterState, eventType: nat, key: ThreadKey, category: Text,
      name: Text, timestamp: Word64)
    requires Inv(w)
    ensures var v := Duration(w, eventType, key, category, name, timestamp);
            Tables(EnsureThread(w, key)) && Tables(Intern(EnsureThread(w, key), category).0) &&
            var (c, categoryRef) := Intern(EnsureThread(w, key), category);
            var (n, nameRef) := Intern(c, name);
            Read(v.records).events == Read(w.records).events + [TraceEvent(
              eventType % 16, Some(key), nameRef, Some(Truncate(name)), categoryRef,
              Some(if Evicts(c, name) && categoryRef == 1 then Truncate(name) else Truncate(category)),
              timestamp, Read(n.records).bound)]
  {
    hide Inv, Intern, EnsureThread, Evicts;
    EnsureThreadInv(w, key);
    var e := EnsureThread(w, key);
    InvTables(e);
    InternInv(e, category);
    var (c, categoryRef) := Intern(e, category);
    InvTables(c);
    InternInv(c, name);
    var (n, nameRef) := Intern(c, name);
    WriteEventInv(n, eventType, e.threads[key], categoryRef, nameRef, timestamp);
  }
}
