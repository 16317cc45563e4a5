/** The bytes of every record, spelled out: the header word as plain arithmetic on the record's fields,
    the words and text that follow it, and the bytes of a word. */
module WireFormat {
  import opened Texts
  import opened Wire
  import opened Records

  // ----- The format -----------------------------------------------------------------------------

  /** The header word, fields from the lowest bit up: 4 bits of record type, 12 of size in words, and
      from bit 16 on whatever the type asks for. */
  function HeaderValue(r: Record): nat {
    match r
    case Magic => 0x0016_5478_4604_0010
    case ProviderInfo(id, name) =>
      0x10 * (1 + (|name| + 7) / 8) + 0x1_0000 + 0x10_0000 * id + 0x10_0000_0000_0000 * |name|
    case ProviderSection(id) => 0x10 + 0x2_0000 + 0x10_0000 * id
    case Init(_, _, _) => 0x41
    case StringRecord(id, text) =>
      2 + 0x10 * (1 + (|text| + 7) / 8) + 0x1_0000 * id + 0x1_0000_0000 * |text|
    case ThreadRecord(slot, _, _) => 0x33 + 0x1_0000 * slot
    case EventRecord(eventType, thread, category, name, _) =>
      0x24 + 0x1_0000 * eventType + 0x100_0000 * thread + 0x1_0000_0000 * category + 0x1_0000_0000_0000 * name
    case ProcessObject(_, name) => 0x27 + 0x1_0000 + 0x100_0000 * name
    case ThreadObject(_, name, _, _) => 0x47 + 0x2_0000 + 0x100_0000 * name + 0x100_0000_0000
  }

  /** 256 to the power `i`. */
  function Scale(i: nat): (p: nat)
    ensures p > 0
  {
    if i == 0 then 1 else 256 * Scale(i - 1)
  }

  /** The word at `index` is `n`, its lowest byte first. */
  predicate HoldsWord(bytes: seq<Byte>, index: nat, n: nat) {
    8 * index + 8 <= |bytes| &&
    forall i :: 0 <= i < 8 ==> bytes[8 * index + i] as int == n / Scale(i) % 256
  }

  /** The text follows the header word, with zero bytes up to the end of the last word it needs. */
  predicate HoldsText(bytes: seq<Byte>, text: Text) {
    |bytes| == 8 + 8 * ((|text| + 7) / 8) &&
    (forall i :: 0 <= i < |text| ==> bytes[8 + i] == text[i]) &&
    forall i :: 8 + |text| <= i < |bytes| ==> bytes[i] as int == 0
  }

  /** The bytes are the record. */
  predicate IsRecord(bytes: seq<Byte>, r: Record) {
    HoldsWord(bytes, 0, HeaderValue(r)) &&
    match r
    case Magic => |bytes| == 8
    case ProviderInfo(_, name) => HoldsText(bytes, name)
    case ProviderSection(_) => |bytes| == 8
    case Init(ticks, base, time) =>
      |bytes| == 32 && HoldsWord(bytes, 1, ticks) && HoldsWord(bytes, 2, base) && HoldsWord(bytes, 3, time)
    case StringRecord(_, text) => HoldsText(bytes, text)
    case ThreadRecord(_, pid, tid) => |bytes| == 24 && HoldsWord(bytes, 1, pid) && HoldsWord(bytes, 2, tid)
    case EventRecord(_, _, _, _, timestamp) => |bytes| == 16 && HoldsWord(bytes, 1, timestamp)
    case ProcessObject(koid, _) => |bytes| == 16 && HoldsWord(bytes, 1, koid)
    case ThreadObject(koid, _, argName, process) =>
      |bytes| == 32 && HoldsWord(bytes, 1, koid) && HoldsWord(bytes, 2, 0x28 + 0x1_0000 * argName) &&
      HoldsWord(bytes, 3, process)
  }

  // ----- Header words ---------------------------------------------------------------------------

  /** Taking the lowest field off. */
  lemma {:induction false} PackField(widths: seq<nat>, values: seq<nat>, p: nat)
    requires |widths| == |values| > 0 && p == Pow2(widths[0]) && values[0] < p
    ensures Pack(widths, values) == values[0] + p * Pack(widths[1..], values[1..])
  {
    SmallMod(values[0], p);
  }

  lemma {:induction false} PackLast(width: nat, value: nat)
    requires value < Pow2(width)
    ensures Pack([width], [value]) == value
  {
    PackField([width], [value], Pow2(width));
  }

  lemma {:induction false} HeaderPowers()
    ensures Pow2(17) == 0x2_0000 && Pow2(20) == 0x10_0000 && Pow2(40) == 0x100_0000_0000
    ensures Pow2(48) == 0x1_0000_0000_0000
  {
    hide Pow2;
    Powers();
    SmallPowers();
    Pow2Add(16, 1);
    Pow2Add(16, 4);
    Pow2Add(8, 32);
    Pow2Add(16, 32);
  }

  /** The type and size of any header. */
  lemma {:induction false} HeaderStart(widths: seq<nat>, values: seq<nat>)
    requires |widths| == |values| >= 3 && widths[0] == 4 && widths[1] == 12
    requires values[0] < 16 && values[1] < 4096
    ensures Pack(widths, values) == values[0] + 0x10 * values[1] + 0x1_0000 * Pack(widths[2..], values[2..])
  {
    hide Pow2, Pack;
    Powers();
    PackField(widths, values, 16);
    PackField(widths[1..], values[1..], 4096);
    assert widths[1..][1..] == widths[2..] && values[1..][1..] == values[2..];
  }

  lemma {:induction false} TwoFields(a: nat, b: nat, x: nat, y: nat)
    requires x < Pow2(a) && y < Pow2(b)
    ensures Pack([a, b], [x, y]) == x + Pow2(a) * y
  {
    hide Pow2, Pack;
    PackField([a, b], [x, y], Pow2(a));
    PackLast(b, y);
    assert [a, b][1..] == [b] && [x, y][1..] == [y];
  }

  lemma {:induction false} ThreeFields(a: nat, b: nat, c: nat, x: nat, y: nat, z: nat)
    requires x < Pow2(a) && y < Pow2(b) && z < Pow2(c)
    ensures Pack([a, b, c], [x, y, z]) == x + Pow2(a) * (y + Pow2(b) * z)
  {
    hide Pow2, Pack;
    PackField([a, b, c], [x, y, z], Pow2(a));
    TwoFields(b, c, y, z);
    assert [a, b, c][1..] == [b, c] && [x, y, z][1..] == [y, z];
  }

  lemma {:induction false} FourFields(a: nat, b: nat, c: nat, d: nat, x: nat, y: nat, z: nat, u: nat)
    requires x < Pow2(a) && y < Pow2(b) && z < Pow2(c) && u < Pow2(d)
    ensures Pack([a, b, c, d], [x, y, z, u]) == x + Pow2(a) * (y + Pow2(b) * (z + Pow2(c) * u))
  {
    hide Pow2, Pack;
    PackField([a, b, c, d], [x, y, z, u], Pow2(a));
    ThreeFields(b, c, d, y, z, u);
    assert [a, b, c, d][1..] == [b, c, d] && [x, y, z, u][1..] == [y, z, u];
  }

  /** The header word of any record the writer can emit. */
  lemma {:induction false} HeaderIs(r: Record)
    requires WellFormed(r)
    ensures HeaderWord(r) == HeaderValue(r)
  {
    hide Pow2, Pack;
    Powers();
    SmallPowers();
    HeaderPowers();
    FieldsFit(r);
    if r.Magic? {
      MagicWord();
    } else {
      HeaderStart(Layout(r), Fields(r));
      var widths, values := Layout(r)[2..], Fields(r)[2..];
      match r
      case ProviderInfo(id, name) =>
        assert widths == [4, 32, 8, 4] && values == [1, id, |name|, 0];
        FourFields(4, 32, 8, 4, 1, id, |name|, 0);
      case ProviderSection(id) =>
        assert widths == [4, 32, 12] && values == [2, id, 0];
        ThreeFields(4, 32, 12, 2, id, 0);
      case Init(_, _, _) =>
        assert widths == [48] && values == [0];
        PackLast(48, 0);
      case StringRecord(id, text) =>
        assert widths == [15, 1, 15, 17] && values == [id, 0, |text|, 0];
        FourFields(15, 1, 15, 17, id, 0, |text|, 0);
      case ThreadRecord(slot, _, _) =>
        assert widths == [8, 40] && values == [slot, 0];
        TwoFields(8, 40, slot, 0);
      case EventRecord(eventType, thread, category, name, _) =>
        assert widths == [4, 4, 8, 16, 16] && values == [eventType, 0, thread, category, name];
        PackField(widths, values, 16);
        assert widths[1..] == [4, 8, 16, 16] && values[1..] == [0, thread, category, name];
        FourFields(4, 8, 16, 16, 0, thread, category, name);
      case ProcessObject(_, name) =>
        assert widths == [8, 16, 4, 20] && values == [1, name, 0, 0];
        FourFields(8, 16, 4, 20, 1, name, 0, 0);
      case ThreadObject(_, name, _, _) =>
        assert widths == [8, 16, 4, 20] && values == [2, name, 1, 0];
        FourFields(8, 16, 4, 20, 2, name, 1, 0);
    }
  }

  /** The word that announces a koid argument. */
  lemma {:induction false} ArgIs(argName: Word16)
    ensures ArgWord(argName) == 0x28 + 0x1_0000 * argName
  {
    hide Pow2, Pack;
    Powers();
    HeaderStart(KOID_ARG, [8, 2, argName, 0]);
    assert KOID_ARG[2..] == [16, 32] && [8, 2, argName, 0][2..] == [argName, 0];
    TwoFields(16, 32, argName, 0);
  }

  // ----- Bytes ------------------------------------------------------------------------------

  lemma {:induction false} DivideTwice(n: nat, p: nat)
    requires p > 0
    ensures n / 256 / p == n / (256 * p)
  {
    var q := n / 256 / p;
    var low, mid := n % 256, (n / 256) % p;
    assert n / 256 == p * q + mid;
    assert n == 256 * (p * q + mid) + low;
    assert 256 * mid + low < 256 * p;
    assert n == (256 * mid + low) + (256 * p) * q by {
      assert 256 * (p * q) == (256 * p) * q;
    }
    SplitWord(256 * mid + low, q, 256 * p);
  }

  /** The byte at `i` of a number written lowest byte first. */
  lemma {:induction false} LittleEndianByte(n: nat, len: nat, i: nat)
    requires i < len
    ensures LittleEndian(n, len)[i] as int == n / Scale(i) % 256
    decreases len
  {
    if i > 0 {
      LittleEndianByte(n / 256, len - 1, i - 1);
      DivideTwice(n, Scale(i - 1));
    } else {
      assert n / 1 == n;
    }
  }

  lemma {:induction false} WordHeld(before: seq<Byte>, n: Word64, after: seq<Byte>, index: nat)
    requires |before| == 8 * index
    ensures HoldsWord(before + (Word(n) + after), index, n)
  {
    hide LittleEndian, Scale;
    var bytes := before + (Word(n) + after);
    forall i | 0 <= i < 8 ensures bytes[8 * index + i] as int == n / Scale(i) % 256 {
      LittleEndianByte(n, 8, i);
      assert bytes[8 * index + i] == Word(n)[i];
    }
  }

  lemma {:induction false} TextHeld(header: seq<Byte>, text: Text)
    requires |header| == 8
    ensures HoldsText(header + (text + Padding(|text|)), text)
  {
  }

  // ----- Main result ------------------------------------------------------------------------

  /** Every record the writer can emit has exactly the bytes the format asks for. */
  lemma {:induction false} EncodedAsSpecified(r: Record)
    requires WellFormed(r)
    ensures IsRecord(Encode(r), r)
  {
    hide HeaderWord, HeaderValue, Word, KoidArg, HoldsWord, HoldsText, Padding;
    HeaderIs(r);
    var h := Word(HeaderWord(r));
    WordHeld([], HeaderWord(r), Payload(r), 0);
    assert Encode(r) == [] + (h + Payload(r));
    EncodeSize(r);
    match r
    case ProviderInfo(_, name) => TextHeld(h, name);
    case Init(ticks, base, time) =>
      WordHeld(h, ticks, Word(base) + Word(time), 1);
      assert Encode(r) == h + (Word(ticks) + (Word(base) + Word(time)));
      WordHeld(h + Word(ticks), base, Word(time), 2);
      assert Encode(r) == h + Word(ticks) + (Word(base) + Word(time));
      WordHeld(h + Word(ticks) + Word(base), time, [], 3);
      assert Encode(r) == h + Word(ticks) + Word(base) + (Word(time) + []);
    case StringRecord(_, text) => TextHeld(h, text);
    case ThreadRecord(_, pid, tid) =>
      WordHeld(h, pid, Word(tid), 1);
      WordHeld(h + Word(pid), tid, [], 2);
      assert Encode(r) == h + Word(pid) + (Word(tid) + []);
    case EventRecord(_, _, _, _, timestamp) =>
      WordHeld(h, timestamp, [], 1);
      assert Encode(r) == h + (Word(timestamp) + []);
    case ProcessObject(koid, _) =>
      WordHeld(h, koid, [], 1);
      assert Encode(r) == h + (Word(koid) + []);
    case ThreadObject(koid, _, argName, process) => ThreadObjectHeld(h, koid, argName, process);
    case _ =>
  }

  lemma {:induction false} ThreadObjectHeld(h: seq<Byte>, koid: Word64, argName: Word16, process: Word64)
    requires |h| == 8
    ensures var bytes := h + (Word(koid) + KoidArg(argName, process));
            HoldsWord(bytes, 1, koid) && HoldsWord(bytes, 2, 0x28 + 0x1_0000 * argName) &&
            HoldsWord(bytes, 3, process)
  {
    hide Word, ArgWord, HoldsWord;
    ArgIs(argName);
    var bytes, a := h + (Word(koid) + KoidArg(argName, process)), Word(ArgWord(argName));
    WordHeld(h, koid, a + Word(process), 1);
    WordHeld(h + Word(koid), ArgWord(argName), Word(process), 2);
    assert bytes == h + Word(koid) + (a + Word(process));
    WordHeld(h + Word(koid) + a, process, [], 3);
    assert bytes == h + Word(koid) + a + (Word(process) + []);
  }
}
