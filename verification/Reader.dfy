/** A streaming reader of trace records: it keeps the string and thread tables the records build up
    and resolves each event's references as it meets the event. */
module Reader {
  import opened Texts
  import opened Records

  /** `bound` is how many strings had been bound, counting each time, when the event was met. */
  datatype TraceEvent = TraceEvent(
    eventType: nat,
    thread: Option<ThreadKey>,
    nameRef: Word16,
    name: Option<Text>,
    categoryRef: Word16,
    category: Option<Text>,
    timestamp: Word64,
    bound: nat)

  datatype ReaderState = ReaderState(
    strings: map<nat, Text>,
    threads: map<nat, ThreadKey>,
    events: seq<TraceEvent>,
    bound: nat)

  const EMPTY := ReaderState(map[], map[], [], 0)

  /** Reference 0 is the empty string. */
  function ResolveString(strings: map<nat, Text>, id: nat): Option<Text> {
    if id == 0 then Some([]) else if id in strings then Some(strings[id]) else None
  }

  function Apply(rd: ReaderState, r: Record): ReaderState {
    match r
    case StringRecord(id, text) => rd.(strings := rd.strings[id := text], bound := rd.bound + 1)
    case ThreadRecord(slot, pid, tid) => rd.(threads := rd.threads[slot := ThreadKey(pid, tid)])
    case EventRecord(eventType, thread, category, name, timestamp) =>
      rd.(events := rd.events + [TraceEvent(
            eventType,
            if thread in rd.threads then Some(rd.threads[thread]) else None,
            name, ResolveString(rd.strings, name),
            category, ResolveString(rd.strings, category),
            timestamp, rd.bound)])
    case _ => rd
  }

  function Read(rs: seq<Record>): ReaderState {
    if rs == [] then EMPTY else Apply(Read(rs[..|rs| - 1]), rs[|rs| - 1])
  }

  /** The names a reader shows for processes, the last one given to each. */
  function ProcessNames(rs: seq<Record>): map<Word64, Option<Text>> {
    if rs == [] then map[]
    else
      var n := |rs| - 1;
      var names := ProcessNames(rs[..n]);
      match rs[n]
      case ProcessObject(koid, name) => names[koid := ResolveString(Read(rs[..n]).strings, name)]
      case _ => names
  }

  /** The names a reader shows for threads; it knows a thread's process by the argument called "process". */
  function ThreadNames(rs: seq<Record>): map<ThreadKey, Option<Text>> {
    if rs == [] then map[]
    else
      var n := |rs| - 1;
      var names, strings := ThreadNames(rs[..n]), Read(rs[..n]).strings;
      match rs[n]
      case ThreadObject(koid, name, argument, process) =>
        if ResolveString(strings, argument) == Some("process")
        then names[ThreadKey(process, koid) := ResolveString(strings, name)]
        else names
      case _ => names
  }

  /** What a reader makes of raw bytes; nothing if they are not well-formed records. */
  function ReadBytes(bytes: seq<Byte>): Option<ReaderState> {
    match DecodeAll(bytes)
    case None => None
    case Some(rs) => Some(Read(rs))
  }

  lemma {:induction false} ReadAppend(rs: seq<Record>, r: Record)
    ensures Read(rs + [r]) == Apply(Read(rs), r)
  {
    assert (rs + [r])[..|rs|] == rs;
  }

  lemma {:induction false} NamesAppend(rs: seq<Record>, r: Record)
    ensures var strings := Read(rs).strings;
            ProcessNames(rs + [r]) ==
            (if r.ProcessObject? then ProcessNames(rs)[r.koid := ResolveString(strings, r.nameRef)]
            else ProcessNames(rs)) &&
            ThreadNames(rs + [r]) ==
            (if r.ThreadObject? && ResolveString(strings, r.argName) == Some("process")
             then ThreadNames(rs)[ThreadKey(r.processKoid, r.koid) := ResolveString(strings, r.nameRef)]
             else ThreadNames(rs))
  {
    assert (rs + [r])[..|rs|] == rs;
  }
}
