/** The writer class itself: its tables and its sink, updated in place. */
module FxtWriter {
  import opened Texts
  import opened Wire
  import opened Records
  import opened WriterTables
  import opened WriterRuns

  /** An append-only byte sink. */
  class VectorSink {
    var buf: seq<Byte>

    constructor ()
      ensures buf == []
    {
      buf := [];
    }

    method Write(data: seq<Byte>)
      modifies this
      ensures buf == old(buf) + data
    {
      buf := buf + data;
    }
  }

  class FxtWriter {
    const sink: VectorSink
    ghost const start: seq<Byte>
    var stringTable: map<Text, Word16>
    var nextStringId: Word16
    var threadTable: map<ThreadKey, Word8>
    var namedProcesses: set<Word64>
    var nextThreadSlot: Word8
    ghost var records: seq<Record>

    ghost function State(): WriterState
      reads this
    {
      WriterState(stringTable, nextStringId, threadTable, namedProcesses, nextThreadSlot, records)
    }

    /** The tables are consistent and the sink holds exactly the records' bytes after what it held
        when the writer was set up. */
    ghost predicate Valid()
      reads this, sink
    {
      Inv(State()) && sink.buf == start + EncodeAll(records)
    }

    constructor (sink: VectorSink)
      ensures Valid() && State() == NEW_WRITER && this.sink == sink && start == sink.buf
    {
      this.sink, start := sink, sink.buf;
      stringTable, nextStringId, threadTable, namedProcesses, nextThreadSlot, records := map[], 1, map[], {}, 0, [];
      new;
      NewWriterInv();
    }

    // ----- Emitting records ---------------------------------------------------------------------

    /** Zero bytes up to the next word boundary. */
    method PadToWord(byteCount: nat)
      modifies sink
      ensures sink.buf == old(sink.buf) + Padding(byteCount)
    {
      var padding := (8 - byteCount % 8) % 8;
      if padding > 0 {
        sink.Write(seq(padding, _ => 0 as char));
      }
    }

    /** Appends a record's bytes, header first. */
    method WriteRecord(r: Record)
      requires sink.buf == start + EncodeAll(records)
      modifies this`records, sink
      ensures sink.buf == start + EncodeAll(records) && records == old(records) + [r]
    {
      hide HeaderWord, Word, KoidArg, Padding;
      ghost var before := sink.buf;
      ghost var header := Word(HeaderWord(r));
      sink.Write(Word(HeaderWord(r)));
      match r {
        case ProviderInfo(_, name) =>
          sink.Write(name);
          PadToWord(|name|);
          Join(before + header, name, Padding(|name|));
        case StringRecord(_, text) =>
          sink.Write(text);
          PadToWord(|text|);
          Join(before + header, text, Padding(|text|));
        case _ =>
          sink.Write(Payload(r));
      }
      Join(before, header, Payload(r));
      Join(start, EncodeAll(records), Encode(r));
      records := records + [r];
      assert records[..|records| - 1] == old(records);
    }

    method EmitStringRecord(id: Word16, s: Text)
      requires sink.buf == start + EncodeAll(records)
      modifies this`records, sink
      ensures sink.buf == start + EncodeAll(records) && records == old(records) + [StringRecord(id, Truncate(s))]
    {
      var effective := s;
      if |s| > MAX_STRING_LENGTH {
        effective := s[..MAX_STRING_LENGTH - 15] + TRUNCATED;
      }
      WriteRecord(StringRecord(id, effective));
    }

    method EmitThreadRecord(slot: Word8, pid: Word64, tid: Word64)
      requires sink.buf == start + EncodeAll(records)
      modifies this`records, sink
      ensures sink.buf == start + EncodeAll(records) && records == old(records) + [ThreadRecord(slot, pid, tid)]
    {
      WriteRecord(ThreadRecord(slot, pid, tid));
    }

    // ----- Strings ----------------------------------------------------------------------------

    /** The scan for the entry with the lowest id, over the table in any order. */
    method FindVictim() returns (victim: Text)
      requires stringTable != map[]
      ensures IsVictim(stringTable, victim)
    {
      victim :| victim in stringTable;
      var rest := stringTable.Keys;
      while rest != {}
        invariant rest <= stringTable.Keys && victim in stringTable
        invariant forall s :: s in stringTable && s !in rest ==> stringTable[victim] <= stringTable[s]
        decreases rest
      {
        var s :| s in rest;
        if stringTable[s] < stringTable[victim] {
          victim := s;
        }
        rest := rest - {s};
      }
    }

    method InternString(s: Text) returns (id: Word16)
      requires Valid()
      modifies this, sink
      ensures Valid()
      ensures (State(), id) == Intern(old(State()), s)
    {
      hide Inv, EncodeAll, Truncate;
      InternInv(State(), s);
      InvTables(State());
      if s == [] {
        return 0;
      }
      if s in stringTable {
        return stringTable[s];
      }
      if nextStringId <= MAX_STRING_ID {
        id := nextStringId;
        nextStringId := nextStringId + 1;
      } else {
        FullIsNonempty(State());
        var victim := FindVictim();
        assert victim == Victim(stringTable) by {
          assert stringTable[victim] == stringTable[Victim(stringTable)];
        }
        id := stringTable[victim];
        stringTable := stringTable - {victim};
      }
      stringTable := stringTable[s := id];
      EmitStringRecord(id, s);
    }

    // ----- Threads ----------------------------------------------------------------------------

    /** Drops the first entry found that holds `slot`; there is at most one. */
    method VacateSlot(slot: Word8)
      requires Slots(State())
      modifies this`threadTable
      ensures threadTable == Vacate(old(threadTable), slot)
    {
      var rest := threadTable.Keys;
      while rest != {}
        invariant rest <= threadTable.Keys && threadTable == old(threadTable)
        invariant forall k :: k in threadTable && k !in rest ==> threadTable[k] != slot
        decreases rest
      {
        var k :| k in rest;
        if threadTable[k] == slot {
          threadTable := threadTable - {k};
          return;
        }
        rest := rest - {k};
      }
    }

    /** Gives a new thread the next slot, whoever held it before. */
    method TakeSlot(key: ThreadKey) returns (slot: Word8)
      requires Valid() && key !in threadTable
      modifies this`threadTable, this`nextThreadSlot, this`records, sink
      ensures Valid() && State() == AssignSlot(old(State()), key)
      ensures key in threadTable && slot == threadTable[key]
    {
      hide Inv, EncodeAll, AssignSlot, Vacate;
      ghost var before := State();
      InvSlots(before);
      AssignInv(before, key);
      slot := nextThreadSlot % 255 + 1;
      nextThreadSlot := (nextThreadSlot + 1) % 256;
      VacateSlot(slot);
      threadTable := threadTable[key := slot];
      EmitThreadRecord(slot, key.pid, key.tid);
      SlotAssigned(before, State(), key);
    }

    method EnsureThread(pid: Word64, tid: Word64) returns (slot: Word8)
      requires Valid()
      modifies this, sink
      ensures Valid()
      ensures State() == WriterTables.EnsureThread(old(State()), ThreadKey(pid, tid))
      ensures ThreadKey(pid, tid) in threadTable && slot == threadTable[ThreadKey(pid, tid)]
    {
      hide Inv, EncodeAll, NameThread, NameProcess, ProcessLabel, ThreadLabel, AssignSlot, WriterTables.EnsureThread;
      var key := ThreadKey(pid, tid);
      EnsureThreadInv(State(), key);
      if key in threadTable {
        KnownThread(State(), key);
        return threadTable[key];
      }
      ghost var before := State();
      slot := TakeSlot(key);
      ghost var a := State();
      InvTables(a);
      if pid !in namedProcesses {
        namedProcesses := namedProcesses + {pid};
        ghost var m := NoteProcess(a, pid);
        assert State() == m;
        WriteProcessName(pid, ProcessLabel(pid));
      }
      InvTables(State());
      NewThread(before, a, State(), key);
      WriteThreadName(pid, tid, ThreadLabel(tid));
    }

    // ----- Names --------------------------------------------------------------------------------

    method WriteProcessName(pid: Word64, name: Text)
      requires Valid()
      modifies this, sink
      ensures Valid()
      ensures State() == NameProcess(old(State()), pid, name)
      ensures threadTable == old(threadTable)
    {
      NameProcessInv(State(), pid, name);
      var nameId := InternString(name);
      WriteRecord(ProcessObject(pid, nameId));
    }

    method WriteThreadName(pid: Word64, tid: Word64, name: Text)
      requires Valid()
      modifies this, sink
      ensures Valid()
      ensures State() == NameThread(old(State()), ThreadKey(pid, tid), name)
      ensures threadTable == old(threadTable)
    {
      NameThreadInv(State(), ThreadKey(pid, tid), name);
      var nameId := InternString(name);
      var processId := InternString(PROCESS);
      WriteRecord(ThreadObject(tid, nameId, processId, pid));
    }

    // ----- Events -------------------------------------------------------------------------------

    method WriteEventById(eventType: Word8, threadRef: Word8, categoryRef: Word16, nameRef: Word16, timestamp: Word64)
      requires Valid()
      modifies this, sink
      ensures Valid()
      ensures State() == WriteEvent(old(State()), eventType, threadRef, categoryRef, nameRef, timestamp)
    {
      WriteEventInv(State(), eventType, threadRef, categoryRef, nameRef, timestamp);
      WriteRecord(EventRecord(eventType % 16, threadRef, categoryRef, nameRef, timestamp));
    }

    method EmitEvent(eventType: Word8, pid: Word64, tid: Word64, category: Text, name: Text, timestamp: Word64)
      requires Valid()
      modifies this, sink
      ensures Valid()
      ensures State() == Duration(old(State()), eventType, ThreadKey(pid, tid), category, name, timestamp)
    {
      ghost var before := State();
      EnsureThreadInv(before, ThreadKey(pid, tid));
      var threadRef := EnsureThread(pid, tid);
      var categoryId := InternString(category);
      var nameId := InternString(name);
      WriteEventById(eventType, threadRef, categoryId, nameId, timestamp);
    }

    method WriteDurationBegin(pid: Word64, tid: Word64, category: Text, name: Text, timestamp: Word64)
      requires Valid()
      modifies this, sink
      ensures Valid()
      ensures State() == Duration(old(State()), 2, ThreadKey(pid, tid), category, name, timestamp)
    {
      EmitEvent(2, pid, tid, category, name, timestamp);
    }

    method WriteDurationEnd(pid: Word64, tid: Word64, category: Text, name: Text, timestamp: Word64)
      requires Valid()
      modifies this, sink
      ensures Valid()
      ensures State() == Duration(old(State()), 3, ThreadKey(pid, tid), category, name, timestamp)
    {
      EmitEvent(3, pid, tid, category, name, timestamp);
    }

    method WritePreamble(providerName: Text, providerId: Word32, ticksPerSecond: Word64, baseTicks: Word64,
        baseTimeNs: Word64)
      requires Valid()
      modifies this, sink
      ensures Valid()
      ensures State() == EmitAll(old(State()),
                Preamble(providerName, providerId, ticksPerSecond, baseTicks, baseTimeNs))
      ensures records == old(records) + [Magic, ProviderInfo(providerId, providerName[..Min(|providerName|, 255)]),
                ProviderSection(providerId), Init(ticksPerSecond, baseTicks, baseTimeNs)]
    {
      hide Inv, EncodeAll;
      ghost var rs := Preamble(providerName, providerId, ticksPerSecond, baseTicks, baseTimeNs);
      PreambleInv(State(), rs);
      ghost var w := State();
      WriteRecord(Magic);
      var nameLen := Min(|providerName|, 255);
      WriteRecord(ProviderInfo(providerId, providerName[..nameLen]));
      WriteRecord(ProviderSection(providerId));
      WriteRecord(Init(ticksPerSecond, baseTicks, baseTimeNs));
      PreambleEmitted(w, rs);
    }
  }

  lemma {:induction false} InvSlots(w: WriterState)
    requires Inv(w)
    ensures Slots(w)
  {
  }

  lemma {:induction false} PreambleEmitted(w: WriterState, rs: seq<Record>)
    requires |rs| == 4
    ensures EmitAll(w, rs) == w.(records := w.records + [rs[0]] + [rs[1]] + [rs[2]] + [rs[3]])
  {
    assert EmitAll(w, rs) == EmitAll(Emit(w, rs[0]), rs[1..]);
    assert EmitAll(Emit(w, rs[0]), rs[1..]) == EmitAll(Emit(Emit(w, rs[0]), rs[1]), rs[2..]);
    var v := Emit(Emit(w, rs[0]), rs[1]);
    assert EmitAll(v, rs[2..]) == EmitAll(Emit(v, rs[2]), rs[3..]);
    assert EmitAll(Emit(v, rs[2]), rs[3..]) == EmitAll(Emit(Emit(v, rs[2]), rs[3]), rs[4..]);
  }
}
