/** The records of the Fuchsia Trace Format that the writer emits, as bytes and back.

    Layouts follow fxt.bes.xml: widths in bits, lowest bits first, padding written as zero. */
module Records {
  import opened Texts
  import opened Wire

  datatype Record =
    | Magic
    | ProviderInfo(providerId: Word32, name: Text)
    | ProviderSection(providerId: Word32)
    | Init(ticksPerSecond: Word64, baseTicks: Word64, baseTimeNs: Word64)
    | StringRecord(id: Word16, text: Text)
    | ThreadRecord(slot: Word8, pid: Word64, tid: Word64)
    | EventRecord(eventType: nat, threadRef: Word8, categoryRef: Word16, nameRef: Word16, timestamp: Word64)
    | ProcessObject(koid: Word64, nameRef: Word16)
    | ThreadObject(koid: Word64, nameRef: Word16, argName: Word16, processKoid: Word64)

  const MAGIC: Word64 := 0x0016547846040010

  const HEADER: seq<nat> := [4, 12, 48]
  const SECTION: seq<nat> := [4, 12, 4, 32, 12]
  const INFO: seq<nat> := [4, 12, 4, 32, 8, 4]
  const THREAD: seq<nat> := [4, 12, 8, 40]
  const STRING: seq<nat> := [4, 12, 15, 1, 15, 17]
  const EVENT: seq<nat> := [4, 12, 4, 4, 8, 16, 16]
  const KERNEL_OBJECT: seq<nat> := [4, 12, 8, 16, 4, 20]
  const KOID_ARG: seq<nat> := [4, 12, 16, 32]

  const MAX_STRING_ID := 32767
  const MAX_STRING_LENGTH := 31999
  const MAX_RSIZE := 4001

  /** Every field of the record fits its width. */
  predicate WellFormed(r: Record) {
    match r
    case ProviderInfo(_, name) => |name| < 256
    case StringRecord(id, text) => id <= MAX_STRING_ID && |text| <= MAX_STRING_LENGTH
    case EventRecord(eventType, _, _, _, _) => eventType < 16
    case _ => true
  }

  function WordsFor(bytes: nat): nat {
    (bytes + 7) / 8
  }

  /** The record's size in words, as its header states it. */
  function RSize(r: Record): nat {
    match r
    case Magic => 1
    case ProviderInfo(_, name) => 1 + WordsFor(|name|)
    case ProviderSection(_) => 1
    case Init(_, _, _) => 4
    case StringRecord(_, text) => 1 + WordsFor(|text|)
    case ThreadRecord(_, _, _) => 3
    case EventRecord(_, _, _, _, _) => 2
    case ProcessObject(_, _) => 2
    case ThreadObject(_, _, _, _) => 4
  }

  function Layout(r: Record): seq<nat> {
    match r
    case Magic => HEADER
    case ProviderInfo(_, _) => INFO
    case ProviderSection(_) => SECTION
    case Init(_, _, _) => HEADER
    case StringRecord(_, _) => STRING
    case ThreadRecord(_, _, _) => THREAD
    case EventRecord(_, _, _, _, _) => EVENT
    case ProcessObject(_, _) => KERNEL_OBJECT
    case ThreadObject(_, _, _, _) => KERNEL_OBJECT
  }

  /** The values of the header word's fields. */
  function Fields(r: Record): (values: seq<nat>)
    ensures |values| == |Layout(r)|
  {
    match r
    case Magic => [0, 1, MAGIC / TWO_16]
    case ProviderInfo(id, name) => [0, RSize(r), 1, id, |name|, 0]
    case ProviderSection(id) => [0, 1, 2, id, 0]
    case Init(_, _, _) => [1, 4, 0]
    case StringRecord(id, text) => [2, RSize(r), id, 0, |text|, 0]
    case ThreadRecord(slot, _, _) => [3, 3, slot, 0]
    case EventRecord(eventType, thread, category, name, _) => [4, 2, eventType, 0, thread, category, name]
    case ProcessObject(_, name) => [7, 2, 1, name, 0, 0]
    case ThreadObject(_, name, _, _) => [7, 4, 2, name, 1, 0]
  }

  lemma {:induction false} LayoutWidth(r: Record)
    ensures Width(Layout(r)) == 64
  {
    Sums();
  }

  lemma {:induction false} Sums()
    ensures Width(HEADER) == 64 && Width(SECTION) == 64 && Width(INFO) == 64 && Width(THREAD) == 64
    ensures Width(STRING) == 64 && Width(EVENT) == 64 && Width(KERNEL_OBJECT) == 64 && Width(KOID_ARG) == 64
  {
    Sum4([4, 12, 48]);
    Sum4(SECTION[1..]);
    Sum4(INFO[2..]);
    Sum4(THREAD);
    Sum4(STRING[2..]);
    Sum4(EVENT[3..]);
    Sum4(KERNEL_OBJECT[2..]);
    Sum4(KOID_ARG);
  }

  lemma {:induction false} Sum4(w: seq<nat>)
    requires 3 <= |w| <= 4
    ensures Width(w) == w[0] + w[1] + w[2] + (if |w| == 4 then w[3] else 0)
  {
    assert Width(w) == w[0] + Width(w[1..]);
    assert Width(w[1..]) == w[1] + Width(w[2..]);
    assert Width(w[2..]) == w[2] + Width(w[3..]);
    if |w| == 4 {
      assert Width(w[3..]) == w[3] + Width(w[4..]);
    }
  }

  lemma {:induction false} FieldsFit(r: Record)
    requires WellFormed(r)
    ensures Fits(Layout(r), Fields(r))
    ensures 1 <= RSize(r) <= MAX_RSIZE
  {
    hide Pow2;
    Powers();
    SmallPowers();
    Pow2Add(16, 1);
    Pow2Add(32, 16);
    Pow2Add(8, 32);
  }

  // ----- Encoding ---------------------------------------------------------------------------

  function HeaderWord(r: Record): Word64 {
    LayoutWidth(r);
    PackBound(Layout(r), Fields(r));
    Powers();
    Pack(Layout(r), Fields(r))
  }

  function KoidArg(argName: Word16, koid: Word64): (bytes: seq<Byte>)
    ensures |bytes| == 16
  {
    Word(ArgWord(argName)) + Word(koid)
  }

  function ArgWord(argName: Word16): Word64 {
    Sums();
    PackBound(KOID_ARG, [8, 2, argName, 0]);
    Powers();
    Pack(KOID_ARG, [8, 2, argName, 0])
  }

  /** Zero bytes up to the next word boundary. */
  function Padding(bytes: nat): (zeros: seq<Byte>)
    ensures |zeros| == (8 - bytes % 8) % 8
  {
    seq((8 - bytes % 8) % 8, _ => 0 as char)
  }

  /** What follows the header word. */
  function Payload(r: Record): seq<Byte> {
    match r
    case Magic => []
    case ProviderInfo(_, name) => name + Padding(|name|)
    case ProviderSection(_) => []
    case Init(ticks, base, time) => Word(ticks) + Word(base) + Word(time)
    case StringRecord(_, text) => text + Padding(|text|)
    case ThreadRecord(_, pid, tid) => Word(pid) + Word(tid)
    case EventRecord(_, _, _, _, timestamp) => Word(timestamp)
    case ProcessObject(koid, _) => Word(koid)
    case ThreadObject(koid, _, argName, process) => Word(koid) + KoidArg(argName, process)
  }

  function Encode(r: Record): seq<Byte> {
    Word(HeaderWord(r)) + Payload(r)
  }

  function EncodeAll(rs: seq<Record>): seq<Byte> {
    if rs == [] then [] else EncodeAll(rs[..|rs| - 1]) + Encode(rs[|rs| - 1])
  }

  // ----- Decoding ---------------------------------------------------------------------------

  function RSizeAt(bytes: seq<Byte>): nat
    requires 8 <= |bytes|
  {
    Unpack(HEADER, WordAt(bytes, 0))[1]
  }

  /** Reads one record from exactly its own bytes. */
  function DecodeOne(bytes: seq<Byte>): Option<Record>
    requires 8 <= |bytes| && |bytes| % 8 == 0
  {
    var w := WordAt(bytes, 0);
    var rtype := Unpack(HEADER, w)[0];
    var words := |bytes| / 8;
    if rtype == 0 then DecodeMetadata(w, bytes)
    else if rtype == 1 && words == 4 then Some(Init(WordAt(bytes, 1), WordAt(bytes, 2), WordAt(bytes, 3)))
    else if rtype == 2 then
      var f := Unpack(STRING, w);
      if f[2] < TWO_16 && 8 + f[4] <= |bytes| then Some(StringRecord(f[2], bytes[8..8 + f[4]])) else None
    else if rtype == 3 && words == 3 then
      var f := Unpack(THREAD, w);
      if f[2] < 256 then Some(ThreadRecord(f[2], WordAt(bytes, 1), WordAt(bytes, 2))) else None
    else if rtype == 4 && words == 2 then
      var f := Unpack(EVENT, w);
      if f[4] < 256 && f[5] < TWO_16 && f[6] < TWO_16 then Some(EventRecord(f[2], f[4], f[5], f[6], WordAt(bytes, 1)))
      else None
    else if rtype == 7 then DecodeKernelObject(w, bytes)
    else None
  }

  function DecodeMetadata(w: Word64, bytes: seq<Byte>): Option<Record>
    requires 8 <= |bytes|
  {
    var f := Unpack(INFO, w);
    if w == MAGIC && |bytes| == 8 then Some(Magic)
    else if f[3] >= TWO_32 then None
    else if f[2] == 1 && 8 + f[4] <= |bytes| then Some(ProviderInfo(f[3], bytes[8..8 + f[4]]))
    else if f[2] == 2 && |bytes| == 8 then Some(ProviderSection(f[3]))
    else None
  }

  function DecodeKernelObject(w: Word64, bytes: seq<Byte>): Option<Record>
    requires 8 <= |bytes|
  {
    var f := Unpack(KERNEL_OBJECT, w);
    if f[3] >= TWO_16 then None
    else if f[2] == 1 && f[4] == 0 && |bytes| == 16 then Some(ProcessObject(WordAt(bytes, 1), f[3]))
    else if f[2] == 2 && f[4] == 1 && |bytes| == 32 then
      var a := Unpack(KOID_ARG, WordAt(bytes, 2));
      if a[0] == 8 && a[1] == 2 && a[2] < TWO_16
      then Some(ThreadObject(WordAt(bytes, 1), f[3], a[2], WordAt(bytes, 3))) else None
    else None
  }

  /** Walks the bytes by the size each record states. */
  function DecodeAll(bytes: seq<Byte>): Option<seq<Record>>
    decreases |bytes|
  {
    if bytes == [] then Some([])
    else if |bytes| < 8 then None
    else
      var size := 8 * RSizeAt(bytes);
      if size == 0 || size > |bytes| then None
      else
        match DecodeOne(bytes[..size])
        case None => None
        case Some(r) =>
          match DecodeAll(bytes[size..])
          case None => None
          case Some(rs) => Some([r] + rs)
  }

  // ----- Round trip ---------------------------------------------------------------------------

  lemma {:induction false} WordAtStart(n: Word64, rest: seq<Byte>)
    ensures WordAt(Word(n) + rest, 0) == n
  {
    assert (Word(n) + rest)[0..8] == Word(n);
    WordRoundTrip(n);
  }

  lemma {:induction false} WordAtNext(first: seq<Byte>, n: Word64, rest: seq<Byte>, index: nat)
    requires |first| == 8 * index
    ensures WordAt(first + Word(n) + rest, index) == n
  {
    assert (first + Word(n) + rest)[8 * index..8 * index + 8] == Word(n);
    WordRoundTrip(n);
  }

  lemma {:induction false} EncodeSize(r: Record)
    ensures |Encode(r)| == 8 * RSize(r)
  {
    hide Word, HeaderWord, KoidArg;
  }

  /** The first two fields are the record type and size, whatever the layout. */
  lemma {:induction false} HeaderFields(r: Record)
    requires WellFormed(r)
    ensures Unpack(Layout(r), HeaderWord(r)) == Fields(r)
    ensures Unpack(HEADER, HeaderWord(r))[..2] == Fields(r)[..2]
    ensures Fields(r)[1] == RSize(r)
  {
    hide Unpack, Pack, Fits;
    FieldsFit(r);
    UnpackPack(Layout(r), Fields(r));
    FirstTwo(Layout(r), HeaderWord(r));
    FirstTwo(HEADER, HeaderWord(r));
  }

  lemma {:induction false} FirstTwo(widths: seq<nat>, word: nat)
    requires |widths| >= 2
    ensures Unpack(widths, word)[0] == word % Pow2(widths[0])
    ensures Unpack(widths, word)[1] == Above(word, Pow2(widths[0])) % Pow2(widths[1])
  {
    assert Unpack(widths, word)[1] == Unpack(widths[1..], Above(word, Pow2(widths[0])))[0];
  }

  lemma {:induction false} MagicWord()
    ensures HeaderWord(Magic) == MAGIC
  {
    hide Pow2;
    Powers();
    assert Pow2(48) == TWO_16 * TWO_32 by { Pow2Add(16, 32); }
    var f := Fields(Magic);
    var top := f[2];
    assert Pack([48], [top]) == top % Pow2(48) + Pow2(48) * Pack([], []);
    assert Pack([12, 48], [1, top]) == 1 % Pow2(12) + Pow2(12) * Pack([48], [top]);
    assert Pack(HEADER, f) == 0 % Pow2(4) + Pow2(4) * Pack([12, 48], [1, top]);
  }

  /** The header of encoded bytes, and the words that follow it. */
  lemma {:induction false} EncodedHeader(r: Record)
    requires WellFormed(r)
    ensures |Encode(r)| == 8 * RSize(r) && RSize(r) >= 1
    ensures WordAt(Encode(r), 0) == HeaderWord(r)
    ensures RSizeAt(Encode(r)) == RSize(r)
    ensures Unpack(HEADER, HeaderWord(r))[0] == Fields(r)[0]
    ensures Unpack(Layout(r), HeaderWord(r)) == Fields(r)
  {
    hide HeaderWord, Unpack, WordAt, Word;
    EncodeSize(r);
    FieldsFit(r);
    HeaderFields(r);
    WordAtStart(HeaderWord(r), Payload(r));
    assert Unpack(HEADER, HeaderWord(r))[0] == Unpack(HEADER, HeaderWord(r))[..2][0];
    assert Unpack(HEADER, HeaderWord(r))[1] == Unpack(HEADER, HeaderWord(r))[..2][1];
  }

  lemma {:induction false} TextBack(header: seq<Byte>, text: seq<Byte>, padding: seq<Byte>)
    requires |header| == 8
    ensures (header + (text + padding))[8..8 + |text|] == text
  {
  }

  lemma {:induction false} DecodeEncode(r: Record)
    requires WellFormed(r)
    ensures |Encode(r)| >= 8 && |Encode(r)| % 8 == 0
    ensures DecodeOne(Encode(r)) == Some(r)
  {
    hide HeaderWord, Unpack, WordAt, Word, KoidArg;
    EncodedHeader(r);
    var h := Word(HeaderWord(r));
    match r
    case Magic => DecodeMagic();
    case ProviderInfo(_, name) => TextBack(h, name, Padding(|name|)); NotMagic(r);
    case ProviderSection(_) => DecodeSection(r);
    case Init(ticks, base, time) =>
      assert Encode(r) == h + Word(ticks) + (Word(base) + Word(time));
      WordAtNext(h, ticks, Word(base) + Word(time), 1);
      assert Encode(r) == (h + Word(ticks)) + Word(base) + Word(time);
      WordAtNext(h + Word(ticks), base, Word(time), 2);
      assert Encode(r) == (h + Word(ticks) + Word(base)) + Word(time) + [];
      WordAtNext(h + Word(ticks) + Word(base), time, [], 3);
    case StringRecord(_, text) => TextBack(h, text, Padding(|text|));
    case ThreadRecord(_, pid, tid) =>
      assert Encode(r) == h + Word(pid) + Word(tid);
      WordAtNext(h, pid, Word(tid), 1);
      assert Encode(r) == (h + Word(pid)) + Word(tid) + [];
      WordAtNext(h + Word(pid), tid, [], 2);
    case EventRecord(_, _, _, _, timestamp) =>
      assert Encode(r) == h + Word(timestamp) + [];
      WordAtNext(h, timestamp, [], 1);
    case ProcessObject(koid, _) =>
      assert Encode(r) == h + Word(koid) + [];
      WordAtNext(h, koid, [], 1);
    case ThreadObject(_, _, _, _) => DecodeThreadObject(r);
  }

  lemma {:induction false} InfoOfMagic()
    ensures Unpack(INFO, MAGIC)[2] == 4
  {
    Powers();
    SmallPowers();
    var a := Above(MAGIC, Pow2(4));
    assert a == MAGIC / 16;
    var b := Above(a, Pow2(12));
    assert b == MAGIC / TWO_16;
    assert Unpack(INFO, MAGIC)[2] == Unpack(INFO[1..], a)[1] == Unpack(INFO[2..], b)[0] == b % 16;
  }

  /** The magic word is no provider's header. */
  lemma {:induction false} NotMagic(r: Record)
    requires WellFormed(r) && (r.ProviderInfo? || r.ProviderSection?)
    ensures HeaderWord(r) != MAGIC
    ensures r.ProviderSection? ==>
              Unpack(INFO, HeaderWord(r))[2] == 2 && Unpack(INFO, HeaderWord(r))[3] == r.providerId
  {
    hide HeaderWord, Unpack;
    InfoOfMagic();
    HeaderFields(r);
    if r.ProviderSection? {
      SectionAsInfo(HeaderWord(r));
    }
  }

  lemma {:induction false} SectionAsInfo(w: nat)
    ensures Unpack(INFO, w)[2] == Unpack(SECTION, w)[2] && Unpack(INFO, w)[3] == Unpack(SECTION, w)[3]
  {
    var a := Above(w, Pow2(4));
    var b := Above(a, Pow2(12));
    var c := Above(b, Pow2(4));
    assert Unpack(INFO, w)[3] == Unpack(INFO[1..], a)[2] == Unpack(INFO[2..], b)[1] == Unpack(INFO[3..], c)[0];
    assert Unpack(SECTION, w)[3] == Unpack(SECTION[1..], a)[2] == Unpack(SECTION[2..], b)[1] ==
           Unpack(SECTION[3..], c)[0];
    assert Unpack(INFO, w)[2] == Unpack(INFO[1..], a)[1] == Unpack(INFO[2..], b)[0];
    assert Unpack(SECTION, w)[2] == Unpack(SECTION[1..], a)[1] == Unpack(SECTION[2..], b)[0];
  }

  lemma {:induction false} DecodeMagic()
    ensures |Encode(Magic)| == 8 && DecodeOne(Encode(Magic)) == Some(Magic)
  {
    hide HeaderWord, Unpack, WordAt, Word;
    EncodedHeader(Magic);
    MagicWord();
  }

  lemma {:induction false} DecodeSection(r: Record)
    requires r.ProviderSection?
    ensures |Encode(r)| == 8 && DecodeOne(Encode(r)) == Some(r)
  {
    hide HeaderWord, Unpack, WordAt, Word;
    EncodedHeader(r);
    NotMagic(r);
  }

  lemma {:induction false} DecodeThreadObject(r: Record)
    requires r.ThreadObject?
    ensures |Encode(r)| == 32 && DecodeOne(Encode(r)) == Some(r)
  {
    hide HeaderWord, Unpack, WordAt, Word, Pack;
    EncodedHeader(r);
    var h := Word(HeaderWord(r));
    var arg := ArgWord(r.argName);
    assert KoidArg(r.argName, r.processKoid) == Word(arg) + Word(r.processKoid);
    assert Encode(r) == h + Word(r.koid) + (Word(arg) + Word(r.processKoid));
    WordAtNext(h, r.koid, Word(arg) + Word(r.processKoid), 1);
    assert Encode(r) == (h + Word(r.koid)) + Word(arg) + Word(r.processKoid);
    WordAtNext(h + Word(r.koid), arg, Word(r.processKoid), 2);
    assert Encode(r) == (h + Word(r.koid) + Word(arg)) + Word(r.processKoid) + [];
    WordAtNext(h + Word(r.koid) + Word(arg), r.processKoid, [], 3);
    ArgBack(r.argName);
  }

  lemma {:induction false} ArgBack(argName: Word16)
    ensures Unpack(KOID_ARG, ArgWord(argName)) == [8, 2, argName, 0]
  {
    Powers();
    assert Fits(KOID_ARG, [8, 2, argName, 0]);
    UnpackPack(KOID_ARG, [8, 2, argName, 0]);
  }

  lemma {:induction false} EncodeAllFirst(r: Record, rs: seq<Record>)
    ensures EncodeAll([r] + rs) == Encode(r) + EncodeAll(rs)
    decreases |rs|
  {
    hide Encode;
    if rs == [] {
      assert [r] + rs == [r] && [r][..0] == [];
      assert EncodeAll([r]) == EncodeAll([]) + Encode(r);
    } else {
      assert ([r] + rs)[..|rs|] == [r] + rs[..|rs| - 1];
      EncodeAllFirst(r, rs[..|rs| - 1]);
    }
  }

  // ----- Main result ------------------------------------------------------------------------

  /** Walking the bytes of any well-formed records by their stated sizes gives back exactly those
      records; the bytes are whole words. */
  lemma {:induction false} BytesRoundTrip(rs: seq<Record>)
    requires forall i :: 0 <= i < |rs| ==> WellFormed(rs[i])
    ensures |EncodeAll(rs)| % 8 == 0
    ensures DecodeAll(EncodeAll(rs)) == Some(rs)
    decreases |rs|
  {
    hide Encode, DecodeOne, RSizeAt, WellFormed;
    if rs != [] {
      var r, rest := rs[0], rs[1..];
      assert rs == [r] + rest;
      EncodeAllFirst(r, rest);
      BytesRoundTrip(rest);
      DecodeFirst(r, EncodeAll(rest));
      DecodeEncode(r);
    }
  }

  lemma {:induction false} DecodeFirst(r: Record, rest: seq<Byte>)
    requires WellFormed(r)
    ensures |Encode(r)| >= 8 && (Encode(r) + rest)[..|Encode(r)|] == Encode(r) &&
            (Encode(r) + rest)[|Encode(r)|..] == rest
    ensures 8 * RSizeAt(Encode(r) + rest) == |Encode(r)|
  {
    EncodedHeader(r);
    assert (Encode(r) + rest)[0..8] == Encode(r)[0..8];
  }
}
