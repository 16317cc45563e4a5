/** The writer's string and thread tables (fxt_writer.cpp), as functions on values, against the
    tables a reader rebuilds from the records. */
module WriterTables {
  import opened Texts
  import opened Records
  import opened Reader

  datatype WriterState = WriterState(
    strings: map<Text, Word16>,
    nextStringId: Word16,
    threads: map<ThreadKey, Word8>,
    named: set<Word64>,
    nextSlot: Word8,
    records: seq<Record>)

  const NEW_WRITER := WriterState(map[], 1, map[], {}, 0, [])

  const TRUNCATED: Text := "<...truncated>"
  const PROCESS: Text := "process"

  function Emit(w: WriterState, r: Record): WriterState {
    w.(records := w.records + [r])
  }

  /** The text a string record carries. */
  function Truncate(s: Text): (t: Text)
    ensures |t| <= 31999
    ensures t == s <==> |s| <= 31999
    ensures t != s ==> |t| == 31998 && t[..31984] == s[..31984] && t[31984..] == "<...truncated>"
  {
    if |s| > MAX_STRING_LENGTH then s[..MAX_STRING_LENGTH - 15] + TRUNCATED else s
  }

  // ----- Strings ----------------------------------------------------------------------------

  predicate Full(w: WriterState) {
    w.nextStringId > MAX_STRING_ID
  }

  /** Interning `s` takes an id away from another string. */
  predicate Evicts(w: WriterState, s: Text) {
    s != [] && s !in w.strings && Full(w)
  }

  predicate IsVictim(strings: map<Text, Word16>, s: Text) {
    s in strings && forall other :: other in strings ==> strings[s] <= strings[other]
  }

  lemma {:induction false} VictimExists(strings: map<Text, Word16>)
    requires strings != map[]
    ensures exists s :: IsVictim(strings, s)
    decreases |strings|
  {
    var s :| s in strings;
    var rest := strings - {s};
    assert forall other :: other in strings && other != s ==> other in rest;
    if rest == map[] {
      assert IsVictim(strings, s);
    } else {
      VictimExists(rest);
      var t :| IsVictim(rest, t);
      assert IsVictim(strings, if strings[s] < strings[t] then s else t);
    }
  }

  /** The string with the lowest id. */
  ghost function Victim(strings: map<Text, Word16>): (s: Text)
    requires strings != map[]
    ensures IsVictim(strings, s)
  {
    VictimExists(strings);
    var s :| IsVictim(strings, s);
    s
  }

  /** The table after interning `s`, and its id. */
  ghost function Intern(w: WriterState, s: Text): (r: (WriterState, Word16))
    requires Tables(w)
  {
    if s == [] then (w, 0)
    else if s in w.strings then (w, w.strings[s])
    else if !Full(w) then
      (Emit(w.(strings := w.strings[s := w.nextStringId], nextStringId := w.nextStringId + 1),
            StringRecord(w.nextStringId, Truncate(s))), w.nextStringId)
    else
      FullIsNonempty(w);
      var v := Victim(w.strings);
      var id := w.strings[v];
      (Emit(w.(strings := (w.strings - {v})[s := id]), StringRecord(id, Truncate(s))), id)
  }

  /** Every id below the next one belongs to exactly one string. */
  predicate Tables(w: WriterState) {
    && 1 <= w.nextStringId <= MAX_STRING_ID + 1
    && [] !in w.strings
    && (forall s :: s in w.strings ==> 1 <= w.strings[s] < w.nextStringId)
    && (forall s, t :: s in w.strings && t in w.strings && w.strings[s] == w.strings[t] ==> s == t)
    && (forall id :: 1 <= id < w.nextStringId ==> id in w.strings.Values)
  }

  lemma {:induction false} FullIsNonempty(w: WriterState)
    requires Tables(w) && Full(w)
    ensures w.strings != map[]
  {
    assert 1 in w.strings.Values;
  }

  /** The victim's id is always 1. */
  lemma {:induction false} VictimHasIdOne(w: WriterState)
    requires Tables(w) && w.strings != map[]
    ensures w.strings[Victim(w.strings)] == 1
  {
    var v := Victim(w.strings);
    assert w.nextStringId > w.strings[v] >= 1;
    assert 1 in w.strings.Values;
    var s :| s in w.strings && w.strings[s] == 1;
    assert w.strings[v] <= w.strings[s];
  }

  // ----- Threads ----------------------------------------------------------------------------

  predicate Slots(w: WriterState) {
    && (forall k :: k in w.threads ==> 1 <= w.threads[k] <= 255)
    && (forall k, l :: k in w.threads && l in w.threads && w.threads[k] == w.threads[l] ==> k == l)
  }

  function NextSlot(w: WriterState): (slot: Word8)
    ensures 1 <= slot <= 255
  {
    w.nextSlot % 255 + 1
  }

  /** The table without whoever holds `slot`. */
  function Vacate(threads: map<ThreadKey, Word8>, slot: Word8): map<ThreadKey, Word8> {
    map k | k in threads && threads[k] != slot :: threads[k]
  }

  function AssignSlot(w: WriterState, key: ThreadKey): WriterState {
    var slot := NextSlot(w);
    Emit(w.(threads := Vacate(w.threads, slot)[key := slot], nextSlot := (w.nextSlot + 1) % 256),
         ThreadRecord(slot, key.pid, key.tid))
  }

  /** The counter wraps at 256 but the slots at 255: slot 1 goes to two new threads in a row exactly at
      the wrap, and then the first of them has lost it at once. */
  lemma {:induction false} SlotTwice(w: WriterState, key: ThreadKey, other: ThreadKey)
    requires key != other
    ensures var once := AssignSlot(w, key);
            (NextSlot(once) == NextSlot(w) <==> w.nextSlot == 255) &&
            (w.nextSlot == 255 ==> NextSlot(w) == 1) &&
            (key !in AssignSlot(once, other).threads <==> w.nextSlot == 255)
  {
    var once := AssignSlot(w, key);
    assert once.threads[key] == NextSlot(w);
    assert key in AssignSlot(once, other).threads <==> once.threads[key] != NextSlot(once);
  }

  lemma {:induction false} SlotAssigned(w: WriterState, v: WriterState, key: ThreadKey)
    requires v.strings == w.strings && v.nextStringId == w.nextStringId && v.named == w.named
    requires v.threads == Vacate(w.threads, NextSlot(w))[key := NextSlot(w)] && v.nextSlot == (w.nextSlot + 1) % 256
    requires v.records == w.records + [ThreadRecord(NextSlot(w), key.pid, key.tid)]
    ensures v == AssignSlot(w, key)
  {
  }

  ghost function NameProcess(w: WriterState, pid: Word64, name: Text): WriterState
    requires Tables(w)
  {
    var (v, id) := Intern(w, name);
    Emit(v, ProcessObject(pid, id))
  }

  ghost function NameThread(w: WriterState, key: ThreadKey, name: Text): WriterState
    requires Tables(w)
  {
    var (v, id) := Intern(w, name);
    InternTables(w, name);
    var (u, processId) := Intern(v, PROCESS);
    Emit(u, ThreadObject(key.tid, id, processId, key.pid))
  }

  function ProcessLabel(pid: nat): Text {
    "[pid=" + Decimal(pid) + "]"
  }

  function ThreadLabel(tid: nat): Text {
    "[tid=" + Decimal(tid) + "]"
  }

  ghost function EnsureThread(w: WriterState, key: ThreadKey): WriterState
    requires Tables(w)
  {
    if key in w.threads then w
    else
      var a := AssignSlot(w, key);
      var b := if key.pid in w.named then a
               else NameProcess(a.(named := a.named + {key.pid}), key.pid, ProcessLabel(key.pid));
      EnsureThreadTables(a, key);
      NameThread(b, key, ThreadLabel(key.tid))
  }

  lemma {:induction false} EnsureThreadTables(a: WriterState, key: ThreadKey)
    requires Tables(a)
    ensures Tables(NameProcess(a.(named := a.named + {key.pid}), key.pid, ProcessLabel(key.pid)))
  {
    InternTables(a.(named := a.named + {key.pid}), ProcessLabel(key.pid));
  }

  lemma {:induction false} KnownThread(w: WriterState, key: ThreadKey)
    requires Tables(w) && key in w.threads
    ensures EnsureThread(w, key) == w
  {
  }

  /** A new thread's slot is assigned, its process named unless it is already, and then itself. */
  lemma {:induction false} NewThread(w: WriterState, a: WriterState, b: WriterState, key: ThreadKey)
    requires Tables(w) && key !in w.threads && a == AssignSlot(w, key) && Tables(a) && Tables(b)
    requires Tables(a.(named := a.named + {key.pid}))
    requires b == if key.pid in a.named then a
                  else NameProcess(a.(named := a.named + {key.pid}), key.pid, ProcessLabel(key.pid))
    ensures EnsureThread(w, key) == NameThread(b, key, ThreadLabel(key.tid))
  {
    hide NameProcess, NameThread, Vacate, Tables, ProcessLabel, ThreadLabel;
  }

  function WriteEvent(w: WriterState, eventType: nat, slot: Word8, categoryRef: Word16, nameRef: Word16,
      timestamp: Word64): WriterState {
    Emit(w, EventRecord(eventType % 16, slot, categoryRef, nameRef, timestamp))
  }

  lemma {:induction false} Owner(strings: map<Text, Word16>, id: Word16) returns (s: Text)
    requires id in strings.Values
    ensures s in strings && strings[s] == id
  {
    s :| s in strings && strings[s] == id;
  }

  // ----- Interning keeps the table ------------------------------------------------------------

  lemma {:induction false} InternTables(w: WriterState, s: Text)
    requires Tables(w)
    ensures Tables(Intern(w, s).0)
    ensures var (v, id) := Intern(w, s);
            if s == [] then id == 0 else s in v.strings && v.strings[s] == id
  {
    var (v, id) := Intern(w, s);
    if s != [] && s !in w.strings {
      if Full(w) {
        FullIsNonempty(w);
        EvictTables(w, s);
      } else {
        forall i | 1 <= i < v.nextStringId ensures i in v.strings.Values {
          if i < w.nextStringId {
            assert i in w.strings.Values;
            var t := Owner(w.strings, i);
            assert t in v.strings && v.strings[t] == i;
          } else {
            assert v.strings[s] == i;
          }
        }
      }
    }
  }

  lemma {:induction false} EvictTables(w: WriterState, s: Text)
    requires Tables(w) && Evicts(w, s)
    ensures Tables(Intern(w, s).0)
    ensures Intern(w, s).1 == 1
    ensures w.strings != map[]
    ensures var v := Intern(w, s).0;
            v.strings == (w.strings - {Victim(w.strings)})[s := 1] && v.nextStringId == w.nextStringId
  {
    FullIsNonempty(w);
    VictimHasIdOne(w);
    var victim := Victim(w.strings);
    var v := Intern(w, s).0;
    forall i | 1 <= i < v.nextStringId ensures i in v.strings.Values {
      assert i in w.strings.Values;
            var t := Owner(w.strings, i);
      if i == 1 {
        assert v.strings[s] == 1;
      } else {
        assert t != victim;
        assert t in v.strings && v.strings[t] == i;
      }
    }
  }

  // ----- The reader's tables --------------------------------------------------------------------

  /** The reader's strings are the writer's, by id and truncated. */
  predicate MirrorsStrings(read: map<nat, Text>, strings: map<Text, Word16>) {
    read.Keys == strings.Values &&
    forall s :: s in strings ==> strings[s] in read && read[strings[s]] == Truncate(s)
  }

  /** The reader's threads are the inverse of the writer's slots. */
  predicate MirrorsThreads(read: map<nat, ThreadKey>, threads: map<ThreadKey, Word8>) {
    read.Keys == threads.Values &&
    forall k :: k in threads ==> threads[k] in read && read[threads[k]] == k
  }

  /** Only id 1 is ever given to a second string. */
  predicate BoundOnce(rs: seq<Record>) {
    forall i, j :: 0 <= i < j < |rs| && rs[i].StringRecord? && rs[j].StringRecord? && rs[i].id == rs[j].id ==>
                     rs[i].id == 1
  }

  predicate IdsBelow(rs: seq<Record>, next: nat) {
    forall i :: 0 <= i < |rs| && rs[i].StringRecord? ==> 1 <= rs[i].id < next
  }

  predicate AllWellFormed(rs: seq<Record>) {
    forall i :: 0 <= i < |rs| ==> WellFormed(rs[i])
  }

  /** How many strings have been given an id, counting each time. */
  function Bindings(rs: seq<Record>): nat {
    Read(rs).bound
  }

  /** No more strings have been interned than there are ids. */
  predicate Roomy(w: WriterState) {
    Bindings(w.records) <= MAX_STRING_ID
  }

  lemma {:induction false} BindingsAppend(rs: seq<Record>, r: Record)
    ensures Bindings(rs + [r]) == Bindings(rs) + (if r.StringRecord? then 1 else 0)
  {
    ReadAppend(rs, r);
  }

  lemma {:induction false} BindingsGrow(a: seq<Record>, b: seq<Record>)
    requires a <= b
    ensures Bindings(a) <= Bindings(b)
    decreases |b|
  {
    if |a| < |b| {
      assert a <= b[..|b| - 1];
      BindingsGrow(a, b[..|b| - 1]);
    } else {
      assert a == b;
    }
  }

  /** What every writer state reached by its own operations satisfies. */
  predicate Inv(w: WriterState) {
    Tables(w) && Slots(w) && AllWellFormed(w.records) &&
    MirrorsStrings(Read(w.records).strings, w.strings) && MirrorsThreads(Read(w.records).threads, w.threads) &&
    BoundOnce(w.records) && IdsBelow(w.records, w.nextStringId) && w.nextStringId <= Bindings(w.records) + 1
  }

  /** From `w` to `v` records were only added, no event among them, and the reader's strings other
      than number 1 did not change; with `all`, number 1 did not either. */
  predicate Advances(w: WriterState, v: WriterState, all: bool) {
    var a, b := Read(w.records), Read(v.records);
    w.records <= v.records && a.events == b.events &&
    forall id :: id in a.strings && (all || id != 1) ==> id in b.strings && b.strings[id] == a.strings[id]
  }

  lemma {:induction false} NewWriterInv()
    ensures Inv(NEW_WRITER)
  {
  }

  lemma {:induction false} AppendRecord(w: WriterState, r: Record)
    requires WellFormed(r) && AllWellFormed(w.records)
    requires BoundOnce(w.records) && IdsBelow(w.records, w.nextStringId)
    requires !r.StringRecord?
    ensures var v := Emit(w, r);
            AllWellFormed(v.records) && BoundOnce(v.records) && IdsBelow(v.records, v.nextStringId) &&
            Read(v.records) == Apply(Read(w.records), r) && Bindings(v.records) == Bindings(w.records)
  {
    hide Read, Apply, Bindings, WellFormed;
    ReadAppend(w.records, r);
    BindingsAppend(w.records, r);
  }

  lemma {:induction false} InternInv(w: WriterState, s: Text)
    requires Inv(w)
    ensures var (v, id) := Intern(w, s);
            Inv(v) && Advances(w, v, !Evicts(w, s)) &&
            v.threads == w.threads && v.named == w.named && v.nextSlot == w.nextSlot &&
            Read(v.records).threads == Read(w.records).threads
    ensures var (v, id) := Intern(w, s);
            id <= MAX_STRING_ID && (id == 0 <==> s == []) &&
            ResolveString(Read(v.records).strings, id) == Some(Truncate(s))
    ensures Evicts(w, s) ==> Intern(w, s).1 == 1 && !Roomy(Intern(w, s).0)
  {
    hide BoundOnce, IdsBelow, AllWellFormed, Victim, Tables;
    InternTables(w, s);
    if s != [] && s !in w.strings {
      if Full(w) {
        EvictInv(w, s);
      } else {
        FreshInv(w, s);
      }
    }
    IdOfString(w, s);
  }

  lemma {:induction false} IdOfString(w: WriterState, s: Text)
    requires Tables(w)
    ensures var (v, id) := Intern(w, s);
            id <= MAX_STRING_ID && (id == 0 <==> s == [])
  {
    InternTables(w, s);
  }

  lemma {:induction false} FreshInv(w: WriterState, s: Text)
    requires Inv(w) && s != [] && s !in w.strings && !Full(w)
    ensures var v := Intern(w, s).0;
            Inv(v) && Advances(w, v, true) && Read(v.records).threads == Read(w.records).threads
  {
    hide BoundOnce, IdsBelow, AllWellFormed, MirrorsStrings, Advances, Tables;
    hide Slots, MirrorsThreads, Read;
    FreshIdUnused(w);
    InternTables(w, s);
    BindInv(w, s, w.nextStringId, w.strings, w.nextStringId + 1);
    SlotsOf(w, Intern(w, s).0);
  }

  lemma {:induction false} SlotsOf(w: WriterState, v: WriterState)
    requires Slots(w) && v.threads == w.threads
    ensures Slots(v)
  {
  }

  lemma {:induction false} FreshIdUnused(w: WriterState)
    requires Tables(w) && !Full(w)
    ensures 1 <= w.nextStringId <= MAX_STRING_ID
    ensures forall t :: t in w.strings ==> w.strings[t] != w.nextStringId
  {
  }

  lemma {:induction false} EvictInv(w: WriterState, s: Text)
    requires Inv(w) && Evicts(w, s)
    ensures var (v, id) := Intern(w, s);
            Inv(v) && Advances(w, v, false) && Read(v.records).threads == Read(w.records).threads && id == 1 &&
              !Roomy(v)
  {
    hide BoundOnce, IdsBelow, AllWellFormed, MirrorsStrings;
    InternTables(w, s);
    EvictTables(w, s);
    VictimOnlyOne(w);
    BindInv(w, s, 1, w.strings - {Victim(w.strings)}, w.nextStringId);
  }

  lemma {:induction false} VictimOnlyOne(w: WriterState)
    requires Tables(w) && w.strings != map[]
    ensures forall t :: t in w.strings ==> (t in w.strings - {Victim(w.strings)} <==> w.strings[t] != 1)
  {
    VictimHasIdOne(w);
  }

  /** Binding `id` to `s`, where `kept` is the table without any other owner of `id`. */
  lemma {:induction false} BindInv(w: WriterState, s: Text, id: Word16, kept: map<Text, Word16>, next: Word16)
    requires Inv(w) && s != [] && s !in w.strings && 1 <= id <= MAX_STRING_ID
    requires kept.Keys <= w.strings.Keys && forall t :: t in w.strings ==> (t in kept <==> w.strings[t] != id)
    requires forall t :: t in kept ==> kept[t] == w.strings[t]
    requires w.nextStringId <= next && id < next && (id == 1 || id == w.nextStringId)
    ensures var v := Emit(w.(strings := kept[s := id], nextStringId := next), StringRecord(id, Truncate(s)));
            AllWellFormed(v.records) && MirrorsStrings(Read(v.records).strings, v.strings) &&
            Read(v.records).threads == Read(w.records).threads && Read(v.records).events == Read(w.records).events &&
            BoundOnce(v.records) && IdsBelow(v.records, next) && Bindings(v.records) == Bindings(w.records) + 1 &&
            Advances(w, v, id == w.nextStringId)
  {
    var r := StringRecord(id, Truncate(s));
    BindingsAppend(w.records, r);
    ReadAppend(w.records, r);
    BindMirrors(Read(w.records).strings, w.strings, s, id, kept);
    if id == w.nextStringId {
      assert id !in w.strings.Values;
    }
    RecordsBind(w.records, r, w.nextStringId, next);
  }

  lemma {:induction false} RecordsBind(rs: seq<Record>, r: Record, before: nat, after: nat)
    requires AllWellFormed(rs) && BoundOnce(rs) && IdsBelow(rs, before)
    requires r.StringRecord? && WellFormed(r) && 1 <= r.id < after && before <= after && (r.id == 1 || r.id == before)
    ensures AllWellFormed(rs + [r]) && BoundOnce(rs + [r]) && IdsBelow(rs + [r], after)
  {
  }

  lemma {:induction false} BindMirrors(read: map<nat, Text>, strings: map<Text, Word16>, s: Text, id: Word16,
      kept: map<Text, Word16>)
    requires MirrorsStrings(read, strings) && s !in strings
    requires kept.Keys <= strings.Keys && forall t :: t in strings ==> (t in kept <==> strings[t] != id)
    requires forall t :: t in kept ==> kept[t] == strings[t]
    ensures MirrorsStrings(read[id := Truncate(s)], kept[s := id])
  {
    var after := kept[s := id];
    assert after[s] == id;
    forall i | i in after.Values ensures i in read.Keys + {id as nat} {
      var t := Owner(after, i);
      if t != s { assert strings[t] == i; }
    }
    forall i | i in read.Keys + {id as nat} ensures i in after.Values {
      if i != id {
        var t := Owner(strings, i);
        assert after[t] == i;
      }
    }
    assert read[id := Truncate(s)].Keys == after.Values;
  }

  // ----- Threads and names ------------------------------------------------------------------------

  lemma {:induction false} VacateMirrors(read: map<nat, ThreadKey>, threads: map<ThreadKey, Word8>, key: ThreadKey,
      slot: Word8)
    requires MirrorsThreads(read, threads) && key !in threads
    ensures MirrorsThreads(read[slot := key], Vacate(threads, slot)[key := slot])
  {
    var after := Vacate(threads, slot)[key := slot];
    var read' := read[slot := key];
    assert after[key] == slot;
    forall i | i in after.Values ensures i in read'.Keys {
      var k :| k in after && after[k] == i;
      if k != key { assert threads[k] == i; }
    }
    forall i | i in read'.Keys ensures i in after.Values {
      if i != slot {
        var k :| k in threads && threads[k] == i;
        assert after[k] == i;
      }
    }
    assert read'.Keys == after.Values;
  }

  lemma {:induction false} AssignInv(w: WriterState, key: ThreadKey)
    requires Inv(w) && key !in w.threads
    ensures var v := AssignSlot(w, key);
            Inv(v) && Advances(w, v, true) && v.threads[key] == NextSlot(w) && v.strings == w.strings &&
            v.nextStringId == w.nextStringId
  {
    hide BoundOnce, IdsBelow, AllWellFormed, MirrorsStrings, MirrorsThreads, Tables;
    var slot := NextSlot(w);
    VacateMirrors(Read(w.records).threads, w.threads, key, slot);
    AppendRecord(w, ThreadRecord(slot, key.pid, key.tid));
    var v := AssignSlot(w, key);
    assert Tables(v) by { TablesOf(w, v); }
    RecordsOf(w, v, Emit(w, ThreadRecord(slot, key.pid, key.tid)));
  }

  lemma {:induction false} TablesOf(w: WriterState, v: WriterState)
    requires Tables(w) && v.strings == w.strings && v.nextStringId == w.nextStringId
    ensures Tables(v)
  {
  }

  lemma {:induction false} RecordsOf(w: WriterState, v: WriterState, u: WriterState)
    requires v.records == u.records && v.nextStringId == u.nextStringId
    requires AllWellFormed(u.records) && BoundOnce(u.records) && IdsBelow(u.records, u.nextStringId)
    ensures AllWellFormed(v.records) && BoundOnce(v.records) && IdsBelow(v.records, v.nextStringId)
  {
  }

  /** Adding a record that touches neither the tables nor the events. */
  lemma {:induction false} PlainRecordInv(w: WriterState, r: Record)
    requires Inv(w) && WellFormed(r)
    requires !r.StringRecord? && !r.ThreadRecord? && !r.EventRecord?
    ensures Inv(Emit(w, r)) && Advances(w, Emit(w, r), true) && Read(Emit(w, r).records) == Read(w.records)
  {
    hide BoundOnce, IdsBelow, AllWellFormed, MirrorsStrings, MirrorsThreads;
    AppendRecord(w, r);
    TablesOf(w, Emit(w, r));
  }

  lemma {:induction false} AdvancesTrans(w: WriterState, u: WriterState, v: WriterState, first: bool, second: bool)
    requires Advances(w, u, first) && Advances(u, v, second)
    ensures Advances(w, v, first && second)
  {
    hide Read;
  }

  /** What only the string table's operations leave alone. */
  predicate SameThreads(w: WriterState, v: WriterState) {
    v.threads == w.threads && v.named == w.named && v.nextSlot == w.nextSlot
  }

  lemma {:induction false} InvTables(w: WriterState)
    requires Inv(w)
    ensures Tables(w)
  {
  }

  lemma {:induction false} NameProcessInv(w: WriterState, pid: Word64, name: Text)
    requires Inv(w)
    ensures Tables(w)
    ensures var v := NameProcess(w, pid, name);
            Inv(v) && Advances(w, v, Roomy(v)) && SameThreads(w, v)
    ensures var (u, id) := Intern(w, name);
            NameProcess(w, pid, name).records == u.records + [ProcessObject(pid, id)] &&
            ResolveString(Read(u.records).strings, id) == Some(Truncate(name))
  {
    hide Intern, Inv, Advances, Roomy;
    InvTables(w);
    InternRoomy(w, name);
    var (u, id) := Intern(w, name);
    var v := NameProcess(w, pid, name);
    PlainRecordInv(u, ProcessObject(pid, id));
    AdvancesTrans(w, u, v, Roomy(u), true);
    RoomyBefore(u, v, true);
    AdvancesLess(w, v, Roomy(u), Roomy(v));
  }

  lemma {:induction false} InternRoomy(w: WriterState, s: Text)
    requires Inv(w)
    ensures Tables(w)
    ensures var (v, id) := Intern(w, s);
            Inv(v) && Advances(w, v, Roomy(v)) && SameThreads(w, v) && id <= MAX_STRING_ID &&
            ResolveString(Read(v.records).strings, id) == Some(Truncate(s))
  {
    hide Intern, Inv, Advances, Roomy, Evicts;
    InvTables(w);
    InternInv(w, s);
    AdvancesLess(w, Intern(w, s).0, !Evicts(w, s), Roomy(Intern(w, s).0));
  }

  lemma {:induction false} NameThreadInv(w: WriterState, key: ThreadKey, name: Text)
    requires Inv(w)
    ensures Tables(w)
    ensures var v := NameThread(w, key, name);
            Inv(v) && SameThreads(w, v) && Advances(w, v, Roomy(v))
  {
    hide Intern, Inv, Advances, Roomy;
    InvTables(w);
    InternRoomy(w, name);
    var (u, id) := Intern(w, name);
    InternRoomy(u, PROCESS);
    var (x, arg) := Intern(u, PROCESS);
    var v := NameThread(w, key, name);
    PlainRecordInv(x, ThreadObject(key.tid, id, arg, key.pid));
    AdvancesTrans(w, u, x, Roomy(u), Roomy(x));
    AdvancesTrans(w, x, v, Roomy(u) && Roomy(x), true);
    RoomyBefore(x, v, true);
    RoomyBefore(u, x, Roomy(x));
    AdvancesLess(w, v, Roomy(u) && Roomy(x), Roomy(v));
  }

  /** The thread's name still resolves when its record is written, unless interning "process" has
      taken id 1 away from it; the argument's name always does. */
  lemma {:induction false} ThreadNameResolves(w: WriterState, key: ThreadKey, name: Text)
    requires Inv(w)
    ensures Tables(w) && Tables(Intern(w, name).0)
    ensures var (u, id) := Intern(w, name);
            var (x, arg) := Intern(u, PROCESS);
            NameThread(w, key, name).records == x.records + [ThreadObject(key.tid, id, arg, key.pid)] &&
            ResolveString(Read(x.records).strings, arg) == Some(PROCESS) &&
            ResolveString(Read(x.records).strings, id) ==
            Some(if Evicts(u, PROCESS) && id == 1 then PROCESS else Truncate(name))
  {
    hide Intern, Inv;
    InvTables(w);
    InternInv(w, name);
    var (u, id) := Intern(w, name);
    InvTables(u);
    InternInv(u, PROCESS);
  }

  /** After `ensure_thread` the thread holds a slot that the reader knows as it. */
  lemma {:induction false} EnsureThreadInv(w: WriterState, key: ThreadKey)
    requires Inv(w)
    ensures Tables(w)
    ensures var v := EnsureThread(w, key);
            Inv(v) && Advances(w, v, Roomy(v)) &&
            key in v.threads && v.threads[key] in Read(v.records).threads &&
            Read(v.records).threads[v.threads[key]] == key
  {
    hide Intern, Inv, Advances, NameThread, NameProcess, Evicts, Roomy;
    InvTables(w);
    var v := EnsureThread(w, key);
    if key in w.threads {
      AdvancesSelf(w);
    } else {
      AssignInv(w, key);
      var a := AssignSlot(w, key);
      EnsureThreadTables(a, key);
      var b := if key.pid in w.named then a
               else NameProcess(a.(named := a.named + {key.pid}), key.pid, ProcessLabel(key.pid));
      ProcessLabelled(w, a, key);
      InvTables(b);
      NameThreadInv(b, key, ThreadLabel(key.tid));
      assert v == NameThread(b, key, ThreadLabel(key.tid));
      AdvancesTrans(w, b, v, Roomy(b), Roomy(v));
      RoomyBefore(b, v, Roomy(v));
      AdvancesLess(w, v, Roomy(b) && Roomy(v), Roomy(v));
    }
    ReaderKnows(v, key);
  }

  lemma {:induction false} RoomyBefore(w: WriterState, v: WriterState, all: bool)
    requires Advances(w, v, all)
    ensures Roomy(v) ==> Roomy(w)
  {
    BindingsGrow(w.records, v.records);
  }

  lemma {:induction false} AdvancesSelf(w: WriterState)
    ensures forall all :: Advances(w, w, all)
  {
  }

  lemma {:induction false} AdvancesLess(w: WriterState, v: WriterState, all: bool, less: bool)
    requires Advances(w, v, all) && (less ==> all)
    ensures Advances(w, v, less)
  {
  }

  lemma {:induction false} ReaderKnows(w: WriterState, key: ThreadKey)
    requires Inv(w) && key in w.threads
    ensures w.threads[key] in Read(w.records).threads && Read(w.records).threads[w.threads[key]] == key
  {
  }

  lemma {:induction false} ProcessLabelled(w: WriterState, a: WriterState, key: ThreadKey)
    requires Inv(w) && Inv(a) && Advances(w, a, true) && key in a.threads
    ensures Tables(a.(named := a.named + {key.pid}))
    ensures var b := if key.pid in w.named then a
                     else NameProcess(a.(named := a.named + {key.pid}), key.pid, ProcessLabel(key.pid));
            Inv(b) && Advances(w, b, Roomy(b)) && key in b.threads
  {
    hide Intern, Inv, Evicts, Advances, Roomy;
    var m := NoteProcess(a, key.pid);
    InvTables(m);
    if key.pid in w.named {
      AdvancesLess(w, a, true, Roomy(a));
    } else {
      var b := NameProcess(m, key.pid, ProcessLabel(key.pid));
      NameProcessInv(m, key.pid, ProcessLabel(key.pid));
      AdvancesTrans(w, a, m, true, true);
      AdvancesTrans(w, m, b, true, Roomy(b));
    }
  }

  lemma {:induction false} NoteProcess(a: WriterState, pid: Word64) returns (m: WriterState)
    requires Inv(a)
    ensures m == a.(named := a.named + {pid}) && Inv(m) && Advances(a, m, true)
  {
    hide BoundOnce, IdsBelow, AllWellFormed, MirrorsStrings, MirrorsThreads;
    m := a.(named := a.named + {pid});
    TablesOf(a, m);
  }

  lemma {:induction false} WriteEventInv(w: WriterState, eventType: nat, slot: Word8, categoryRef: Word16,
      nameRef: Word16, timestamp: Word64)
    requires Inv(w)
    ensures var v := WriteEvent(w, eventType, slot, categoryRef, nameRef, timestamp);
            var rd := Read(w.records);
            Inv(v) && w.records <= v.records &&
            Read(v.records) == rd.(events := rd.events + [TraceEvent(
              eventType % 16, if slot in rd.threads then Some(rd.threads[slot]) else None,
              nameRef, ResolveString(rd.strings, nameRef), categoryRef, ResolveString(rd.strings, categoryRef),
              timestamp, rd.bound)])
  {
    hide BoundOnce, IdsBelow, AllWellFormed, MirrorsStrings, MirrorsThreads;
    var r := EventRecord(eventType % 16, slot, categoryRef, nameRef, timestamp);
    AppendRecord(w, r);
    TablesOf(w, Emit(w, r));
  }
}
