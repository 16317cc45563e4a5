/** How many strings a run may use before ids run out: exactly as many distinct ones as there are ids,
    however often each is asked for. */
module StringBudget {
  import opened Texts
  import opened Records
  import opened WriterTables
  import opened WriterRuns

  // ----- The strings a run asks for -------------------------------------------------------------

  function AskedByThread(w: WriterState, key: ThreadKey): set<Text> {
    if key in w.threads then {}
    else {ThreadLabel(key.tid), PROCESS} + (if key.pid in w.named then {} else {ProcessLabel(key.pid)})
  }

  function Asked(w: WriterState, call: WriterCall): set<Text> {
    match call
    case WritePreamble(_, _, _, _, _) => {}
    case InternString(text) => {text}
    case RegisterThread(key) => AskedByThread(w, key)
    case WriteDuration(_, key, category, name, _) => AskedByThread(w, key) + {category, name}
    case WriteEventById(_, _, _, _, _) => {}
    case WriteProcessName(_, name) => {name}
    case WriteThreadName(_, name) => {name, PROCESS}
  }

  ghost function AskedAll(w: WriterState, calls: seq<WriterCall>): set<Text>
    requires Inv(w)
    decreases |calls|
  {
    if calls == [] then {}
    else
      PerformInv(w, calls[0]);
      Asked(w, calls[0]) + AskedAll(Perform(w, calls[0]), calls[1..])
  }

  // ----- Counting them --------------------------------------------------------------------------

  /** With ids enough the table holds the strings asked for so far, each bound once. */
  predicate Counted(w: WriterState, asked: set<Text>) {
    [] !in asked && w.strings.Keys <= asked &&
    if Roomy(w) then w.strings.Keys == asked && |asked| == Bindings(w.records) == w.nextStringId - 1
    else |asked| > MAX_STRING_ID
  }

  lemma {:induction false} SubsetSize<T>(a: set<T>, b: set<T>)
    requires a <= b
    ensures |a| <= |b|
  {
    assert b == a + (b - a);
  }

  lemma {:induction false} CountedSame(w: WriterState, v: WriterState, asked: set<Text>)
    requires Counted(w, asked)
    requires v.strings == w.strings && v.nextStringId == w.nextStringId && Bindings(v.records) == Bindings(w.records)
    ensures Counted(v, asked)
  {
  }

  lemma {:induction false} EmitCounted(w: WriterState, r: Record, asked: set<Text>)
    requires Counted(w, asked) && !r.StringRecord?
    ensures Counted(Emit(w, r), asked)
  {
    BindingsAppend(w.records, r);
  }

  lemma {:induction false} InternCounted(w: WriterState, s: Text, asked: set<Text>)
    requires Inv(w) && Counted(w, asked)
    ensures Tables(w) && Inv(Intern(w, s).0) && Counted(Intern(w, s).0, asked + ({s} - {[]}))
  {
    hide Inv, Intern, Counted, Bindings;
    InvTables(w);
    InternInv(w, s);
    if s == [] || s in w.strings {
      KnownCounted(w, s, asked);
    } else {
      assert {s} - {[]} == {s};
      BindCounted(w, s, asked);
    }
  }

  lemma {:induction false} KnownCounted(w: WriterState, s: Text, asked: set<Text>)
    requires Tables(w) && Counted(w, asked) && (s == [] || s in w.strings)
    ensures Counted(Intern(w, s).0, asked + ({s} - {[]}))
  {
    hide Bindings;
    assert asked + ({s} - {[]}) == asked;
  }

  lemma {:induction false} BindCounted(w: WriterState, s: Text, asked: set<Text>)
    requires Tables(w) && Counted(w, asked) && s != [] && s !in w.strings
    ensures Counted(Intern(w, s).0, asked + {s})
  {
    hide Bindings, Truncate;
    var (v, id) := Intern(w, s);
    var all := asked + {s};
    SubsetSize(asked, all);
    BindingsAppend(w.records, StringRecord(id, Truncate(s)));
    assert v.records == w.records + [StringRecord(id, Truncate(s))];
    assert v.strings.Keys <= all;
    if Roomy(w) {
      assert |all| == |asked| + 1;
      assert !Full(w) ==> v.strings.Keys == w.strings.Keys + {s};
    }
  }

  lemma {:induction false} NameProcessCounted(w: WriterState, pid: Word64, name: Text, asked: set<Text>)
    requires Inv(w) && Counted(w, asked)
    ensures Tables(w) && Inv(NameProcess(w, pid, name)) && Counted(NameProcess(w, pid, name), asked + ({name} - {[]}))
  {
    hide Inv, Intern, Counted;
    InternCounted(w, name, asked);
    NameProcessInv(w, pid, name);
    var (v, id) := Intern(w, name);
    EmitCounted(v, ProcessObject(pid, id), asked + ({name} - {[]}));
  }

  lemma {:induction false} NameThreadCounted(w: WriterState, key: ThreadKey, name: Text, asked: set<Text>)
    requires Inv(w) && Counted(w, asked)
    ensures Tables(w) && Inv(NameThread(w, key, name))
    ensures Counted(NameThread(w, key, name), asked + ({name, PROCESS} - {[]}))
  {
    hide Inv, Intern, Counted;
    InternCounted(w, name, asked);
    NameThreadInv(w, key, name);
    var (v, id) := Intern(w, name);
    var first := asked + ({name} - {[]});
    InternCounted(v, PROCESS, first);
    var (u, processId) := Intern(v, PROCESS);
    EmitCounted(u, ThreadObject(key.tid, id, processId, key.pid), first + ({PROCESS} - {[]}));
    assert first + ({PROCESS} - {[]}) == asked + ({name, PROCESS} - {[]});
  }

  lemma {:induction false} EnsureThreadCounted(w: WriterState, key: ThreadKey, asked: set<Text>)
    requires Inv(w) && Counted(w, asked)
    ensures Tables(w) && Inv(EnsureThread(w, key)) && Counted(EnsureThread(w, key), asked + AskedByThread(w, key))
  {
    hide Inv, Intern, Counted, NameProcess, NameThread, Vacate, ProcessLabel, ThreadLabel, Bindings, Advances;
    EnsureThreadInv(w, key);
    if key in w.threads {
      assert asked + {} == asked;
    } else {
      AssignInv(w, key);
      var a := AssignSlot(w, key);
      BindingsAppend(w.records, ThreadRecord(NextSlot(w), key.pid, key.tid));
      CountedSame(w, a, asked);
      var b, more := a, asked;
      LabelNonempty(key);
      if key.pid !in w.named {
        var m := NoteProcess(a, key.pid);
        CountedSame(a, m, asked);
        NameProcessCounted(m, key.pid, ProcessLabel(key.pid), asked);
        b, more := NameProcess(m, key.pid, ProcessLabel(key.pid)), asked + ({ProcessLabel(key.pid)} - {[]});
      }
      NameThreadCounted(b, key, ThreadLabel(key.tid), more);
      assert more + ({ThreadLabel(key.tid), PROCESS} - {[]}) == asked + AskedByThread(w, key);
    }
  }

  lemma {:induction false} LabelNonempty(key: ThreadKey)
    ensures ProcessLabel(key.pid) != [] && ThreadLabel(key.tid) != []
  {
  }

  lemma {:induction false} DurationCounted(w: WriterState, eventType: nat, key: ThreadKey, category: Text, name: Text,
      timestamp: Word64, asked: set<Text>)
    requires Inv(w) && Counted(w, asked)
    ensures Counted(Duration(w, eventType, key, category, name, timestamp),
                    asked + ((AskedByThread(w, key) + {category, name}) - {[]}))
  {
    hide Inv, Intern, Counted, EnsureThread;
    EnsureThreadInv(w, key);
    EnsureThreadCounted(w, key, asked);
    var e := EnsureThread(w, key);
    var one := asked + AskedByThread(w, key);
    InternCounted(e, category, one);
    var (c, categoryRef) := Intern(e, category);
    InternCounted(c, name, one + ({category} - {[]}));
    var (n, nameRef) := Intern(c, name);
    var all := one + ({category} - {[]}) + ({name} - {[]});
    EmitCounted(n, EventRecord(eventType % 16, e.threads[key], categoryRef, nameRef, timestamp), all);
    LabelNonempty(key);
    assert all == asked + ((AskedByThread(w, key) + {category, name}) - {[]});
  }

  lemma {:induction false} EmitAllCounted(w: WriterState, rs: seq<Record>, asked: set<Text>)
    requires Counted(w, asked) && forall i :: 0 <= i < |rs| ==> !rs[i].StringRecord?
    ensures Counted(EmitAll(w, rs), asked)
    decreases |rs|
  {
    hide Counted;
    if rs != [] {
      EmitCounted(w, rs[0], asked);
      EmitAllCounted(Emit(w, rs[0]), rs[1..], asked);
    }
  }

  lemma {:induction false} PerformCounted(w: WriterState, call: WriterCall, asked: set<Text>)
    requires Inv(w) && Counted(w, asked)
    ensures Counted(Perform(w, call), asked + (Asked(w, call) - {[]}))
  {
    hide Inv, Intern, Counted, EnsureThread, Duration, NameProcess, NameThread, AskedByThread;
    if call.WritePreamble? || call.WriteEventById? {
      assert asked + (Asked(w, call) - {[]}) == asked;
    }
    match call
    case WritePreamble(name, id, ticks, baseTicks, baseTimeNs) =>
      EmitAllCounted(w, Preamble(name, id, ticks, baseTicks, baseTimeNs), asked);
    case InternString(text) => InternCounted(w, text, asked);
    case RegisterThread(key) =>
      EnsureThreadCounted(w, key, asked);
      NoLabelEmpty(w, key);
    case WriteDuration(eventType, key, category, name, timestamp) =>
      DurationCounted(w, eventType, key, category, name, timestamp, asked);
    case WriteEventById(eventType, thread, category, name, timestamp) =>
      EmitCounted(w, EventRecord(eventType % 16, thread, category, name, timestamp), asked);
    case WriteProcessName(pid, name) => NameProcessCounted(w, pid, name, asked);
    case WriteThreadName(key, name) => NameThreadCounted(w, key, name, asked);
  }

  lemma {:induction false} NoLabelEmpty(w: WriterState, key: ThreadKey)
    ensures AskedByThread(w, key) - {[]} == AskedByThread(w, key)
  {
    LabelNonempty(key);
  }

  lemma {:induction false} RunCounted(w: WriterState, calls: seq<WriterCall>, v: WriterState, asked: set<Text>)
    requires Inv(w) && Counted(w, asked) && Reaches(w, calls, v)
    ensures Counted(v, asked + (AskedAll(w, calls) - {[]}))
    decreases |calls|
  {
    hide Inv, Perform, Asked, Counted;
    if calls == [] {
      assert asked + ({} - {[]}) == asked;
    } else {
      PerformInv(w, calls[0]);
      PerformCounted(w, calls[0], asked);
      var now := Asked(w, calls[0]);
      var next := Perform(w, calls[0]);
      RunCounted(next, calls[1..], v, asked + (now - {[]}));
      assert asked + (now - {[]}) + (AskedAll(next, calls[1..]) - {[]}) ==
             asked + ((now + AskedAll(next, calls[1..])) - {[]});
    }
  }

  // ----- Main result ------------------------------------------------------------------------

  /** A run stays within the ids exactly if it asks for no more than 32767 distinct non-empty strings,
      its thread and process labels included; then every string it asked for is in the table. */
  lemma {:induction false} EnoughIds(calls: seq<WriterCall>, w: WriterState)
    requires Reaches(NEW_WRITER, calls, w)
    ensures Inv(NEW_WRITER)
    ensures var asked := AskedAll(NEW_WRITER, calls) - {[]};
            (Bindings(w.records) <= 32767 <==> |asked| <= 32767) && (Roomy(w) ==> w.strings.Keys == asked)
  {
    NewWriterInv();
    RunCounted(NEW_WRITER, calls, w, {});
    assert {} + (AskedAll(NEW_WRITER, calls) - {[]}) == AskedAll(NEW_WRITER, calls) - {[]};
  }
}
