/** Whole inputs as perf prints them: branches, samples and errors in any order, blank lines between
    them or not; and reading them back. */
module TraceText {
  import opened Texts
  import opened PerfEvent
  import opened TextSearch
  import opened PerfScriptParser
  import opened HeaderLine
  import opened BranchLine
  import opened SampleLines
  import opened ErrorLine

  datatype Item =
    | BlankLine
    | BranchItem(h: HeaderLayout, pid: Word32, tid: Word32, timeNs: Word64, branch: BranchData, l: Layout)
    | SampleItem(h: HeaderLayout, pid: Word32, tid: Word32, timeNs: Word64, rest: Text, frames: seq<FrameLine>)
    | MissItem(h: HeaderLayout, pid: Word32, tid: Word32, timeNs: Word64, rest: Text, name: SampleEventName,
        indent: Text, location: Location, dso: Object)
    | FrequencyItem(h: HeaderLayout, pid: Word32, tid: Word32, timeNs: Word64, ratio: nat, freqMhz: Word32, tail: Text)
    | SyncItem(h: HeaderLayout, pid: Word32, tid: Word32, timeNs: Word64)
    | ErrorItem(layout: ErrorLayout, pid: Word32, tid: Word32, time: Option<Word64>, ip: Option<Word64>, message: Text)

  function FrequencyText(ratio: nat, freqMhz: nat, tail: Text): Text {
    "   cbr: " + (Decimal(ratio) + (" freq: " + (Decimal(freqMhz) + (" MHz" + tail))))
  }

  function ItemLines(i: Item): seq<Text> {
    match i
    case BlankLine => [[]]
    case BranchItem(h, pid, tid, timeNs, branch, l) => [Print(h, pid, tid, timeNs, branch, l)]
    case SampleItem(h, pid, tid, timeNs, rest, frames) => SampleText(h, pid, tid, timeNs, rest, frames)
    case MissItem(h, pid, tid, timeNs, rest, name, indent, location, dso) =>
      [HeaderText(h, pid, tid, timeNs, MissName(name), rest), FrameText(Frame(indent, location, dso))]
    case FrequencyItem(h, pid, tid, timeNs, ratio, freqMhz, tail) =>
      [HeaderText(h, pid, tid, timeNs, "cbr", FrequencyText(ratio, freqMhz, tail))]
    case SyncItem(h, pid, tid, timeNs) => [HeaderText(h, pid, tid, timeNs, "psb", [])]
    case ErrorItem(layout, pid, tid, time, ip, message) => [ErrorText(layout, pid, tid, time, ip, message)]
  }

  function ItemEvents(i: Item): seq<Event> {
    match i
    case BlankLine => []
    case BranchItem(_, pid, tid, timeNs, branch, _) => [Ok(pid, tid, timeNs, Branch(branch))]
    case SampleItem(_, pid, tid, timeNs, _, frames) => [Ok(pid, tid, timeNs, StacktraceSample(StackOf(frames)))]
    case MissItem(_, pid, tid, timeNs, _, name, _, location, _) =>
      [Ok(pid, tid, timeNs, EventSample(location, 1, name))]
    case FrequencyItem(_, pid, tid, timeNs, _, freqMhz, _) => [Ok(pid, tid, timeNs, Power(freqMhz))]
    case SyncItem(_, _, _, _) => []
    case ErrorItem(_, pid, tid, time, ip, message) => [DecodeError(pid, tid, time, ip, message)]
  }

  /** The item is laid out as perf does, and its parts do not look like marks the parser searches for. */
  predicate IsItem(i: Item) {
    match i
    case BlankLine => true
    case BranchItem(h, _, _, _, branch, l) => IsHeaderLayout(h) && Framed(branch, l) && PlainParts(branch, l)
    case SampleItem(h, _, _, _, rest, frames) =>
      IsHeaderLayout(h) && (rest != [] ==> rest[0] == ' ') && AllFrameLines(frames) && AllPlain(frames)
    case MissItem(h, _, _, _, rest, _, indent, location, dso) =>
      var frame := Frame(indent, location, dso);
      IsHeaderLayout(h) && (rest != [] ==> rest[0] == ' ') && IsFrameLine(frame) && IsPlainFrame(frame)
    case FrequencyItem(h, _, _, _, _, _, _) => IsHeaderLayout(h)
    case SyncItem(h, _, _, _) => IsHeaderLayout(h)
    case ErrorItem(_, _, _, time, _, message) => time.Some? || !MentionsTime(message)
  }

  predicate AllItems(items: seq<Item>) {
    forall i :: 0 <= i < |items| ==> IsItem(items[i])
  }

  function Lines(items: seq<Item>): seq<Text> {
    if items == [] then [] else ItemLines(items[0]) + Lines(items[1..])
  }

  function EventsOfItems(items: seq<Item>): seq<Event> {
    if items == [] then [] else ItemEvents(items[0]) + EventsOfItems(items[1..])
  }

  // ----- One item -----------------------------------------------------------------------------

  lemma {:induction false} ItemBack(i: Item)
    requires IsItem(i) && i != BlankLine
    ensures Events(ParseGroup(ItemLines(i))) == ItemEvents(i)
  {
    hide ParseGroup, Framed, PlainParts, IsHeaderLayout, HeaderText, ErrorText, Print, SampleText, FrameText, StackOf,
      AllPlain, AllFrameLines, IsFrameLine, IsPlainFrame, MentionsTime;
    match i
    case BranchItem(h, pid, tid, timeNs, branch, l) => BranchRoundTrip(h, pid, tid, timeNs, branch, l);
    case SampleItem(h, pid, tid, timeNs, rest, frames) => SampleRoundTrip(h, pid, tid, timeNs, rest, frames);
    case MissItem(h, pid, tid, timeNs, rest, name, indent, location, dso) =>
      MissRoundTrip(h, pid, tid, timeNs, rest, name, Frame(indent, location, dso), []);
      assert ItemLines(i) == ItemLines(i) + [];
    case FrequencyItem(h, pid, tid, timeNs, ratio, freqMhz, tail) =>
      FrequencyRoundTrip(h, pid, tid, timeNs, ratio, freqMhz, tail);
    case SyncItem(h, pid, tid, timeNs) => FrequencyRoundTrip(h, pid, tid, timeNs, 0, 0, []);
    case ErrorItem(layout, pid, tid, time, ip, message) =>
      ErrorRoundTrip(layout, pid, tid, time, ip, message, []);
      assert ItemLines(i) == ItemLines(i) + [];
  }

  /** Every item has a first line that does not begin with a tab, and then only lines that do. */
  lemma {:induction false} ItemShape(i: Item)
    requires IsItem(i)
    ensures ItemLines(i) != [] && !Tabbed(ItemLines(i)[0]) && (ItemLines(i)[0] == [] <==> i == BlankLine)
    ensures i == BlankLine ==> ItemLines(i) == [[]]
    ensures forall k :: 1 <= k < |ItemLines(i)| ==> Tabbed(ItemLines(i)[k])
  {
    hide Framed, PlainParts, HeaderText, ErrorText, IsHeaderLayout, Body, AllPlain, MentionsTime, LocationField;
    match i
    case BlankLine =>
    case BranchItem(h, pid, tid, timeNs, branch, l) =>
      HeaderStarts(h, pid, tid, timeNs, "branches", "   " + Body(branch, l));
    case SampleItem(h, pid, tid, timeNs, rest, _) => HeaderStarts(h, pid, tid, timeNs, "cycles", rest);
    case MissItem(h, pid, tid, timeNs, rest, name, _, _, _) => HeaderStarts(h, pid, tid, timeNs, MissName(name), rest);
    case FrequencyItem(h, pid, tid, timeNs, ratio, freqMhz, tail) =>
      HeaderStarts(h, pid, tid, timeNs, "cbr", FrequencyText(ratio, freqMhz, tail));
    case SyncItem(h, pid, tid, timeNs) => HeaderStarts(h, pid, tid, timeNs, "psb", []);
    case ErrorItem(layout, pid, tid, time, ip, message) => ErrorLineStarts(layout, pid, tid, time, ip, message);
  }

  predicate Tabbed(line: Text) {
    line != [] && line[0] == '\t'
  }

  lemma {:induction false} HeaderStarts(h: HeaderLayout, pid: nat, tid: nat, timeNs: Word64, name: Text, rest: Text)
    ensures var line := HeaderText(h, pid, tid, timeNs, name, rest); line != [] && !Tabbed(line)
  {
    hide Decimal, StampText, ValueOf;
    DecimalValue(pid);
    var line := HeaderText(h, pid, tid, timeNs, name, rest);
    assert line[0] == if h.indent > 0 then ' ' else Decimal(pid)[0];
  }

  lemma {:induction false} ErrorLineStarts(l: ErrorLayout, pid: Word32, tid: Word32, time: Option<Word64>,
      ip: Option<Word64>, message: Text)
    ensures var line := ErrorText(l, pid, tid, time, ip, message); line != [] && !Tabbed(line)
  {
    hide Parts, Glued;
    ErrorStarts(l, pid, tid, time, ip, message);
    var s := Glued(Parts(l, pid, tid, time, ip), message);
    assert ErrorText(l, pid, tid, time, ip, message)[0] == if l.indent > 0 then ' ' else s[0];
  }

  // ----- Main result ------------------------------------------------------------------------

  lemma {:induction false} NextNotTabbed(items: seq<Item>)
    requires AllItems(items)
    ensures Lines(items) != [] ==> !Tabbed(Lines(items)[0])
  {
    hide IsItem, ItemLines, Tabbed;
    if items != [] {
      ItemShape(items[0]);
      assert Lines(items)[0] == ItemLines(items[0])[0];
    }
  }

  /** Any input printed item by item parses to exactly the items' events, in order: no line is taken for
      part of another item, and blank lines do not matter. */
  lemma {:induction false} TextRoundTrip(items: seq<Item>)
    requires AllItems(items)
    ensures ParseAll(Groups(Lines(items))) == EventsOfItems(items)
    decreases |items|
  {
    hide IsItem, ItemLines, ItemEvents, ParseGroup;
    if items != [] {
      var first, rest := ItemLines(items[0]), Lines(items[1..]);
      ItemShape(items[0]);
      TextRoundTrip(items[1..]);
      if items[0] == BlankLine {
        assert Lines(items)[1..] == rest;
        NoEvents();
      } else {
        ItemBack(items[0]);
        NextNotTabbed(items[1..]);
        GroupEnds(first, rest);
        assert ([first] + Groups(rest))[1..] == Groups(rest);
      }
    }
  }

  lemma {:induction false} NoEvents()
    ensures ItemEvents(BlankLine) == []
  {
  }
}
