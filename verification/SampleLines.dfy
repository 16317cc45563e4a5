/** Printing samples the way perf does, a header line and a line for each frame, and reading them back. */
module SampleLines {
  import opened Texts
  import opened PerfEvent
  import opened TextSearch
  import opened PerfScriptParser
  import opened HeaderLine
  import opened BranchLine

  // ----- Frames -------------------------------------------------------------------------------

  /** A line below the header: a frame, or a line without an address. */
  datatype FrameLine =
    | Frame(indent: Text, location: Location, dso: Object)
    | NoAddress(indent: Text, remark: Text)

  predicate IsFrameLine(f: FrameLine) {
    f.indent != [] && f.indent[0] == '\t' && AllBlank(f.indent) &&
    match f
    case Frame(_, location, dso) => IsShown(location, dso)
    case NoAddress(_, remark) => remark != [] ==> remark[0] !in " \t0123456789abcdefABCDEF"
  }

  function FrameText(f: FrameLine): Text {
    match f
    case Frame(indent, location, dso) => indent + LocationField(location, dso)
    case NoAddress(indent, remark) => indent + remark
  }

  function FrameTexts(fs: seq<FrameLine>): (lines: seq<Text>)
    ensures |lines| == |fs|
  {
    seq(|fs|, i requires 0 <= i < |fs| => FrameText(fs[i]))
  }

  /** The stack, outermost frame first; perf prints it innermost first. */
  function StackOf(fs: seq<FrameLine>): seq<Location> {
    if fs == [] then []
    else StackOf(fs[1..]) + OwnFrame(fs[0])
  }

  function OwnFrame(f: FrameLine): seq<Location> {
    match f
    case Frame(_, location, _) => [location]
    case NoAddress(_, _) => []
  }

  predicate IsPlainFrame(f: FrameLine) {
    f.Frame? ==> PlainLocation(f.location, f.dso)
  }

  predicate AllPlain(fs: seq<FrameLine>) {
    forall i :: 0 <= i < |fs| ==> IsPlainFrame(fs[i])
  }

  predicate AllFrameLines(fs: seq<FrameLine>) {
    forall i :: 0 <= i < |fs| ==> IsFrameLine(fs[i])
  }

  /** What one line adds to the frames. */
  function FramesOfLine(line: Text): seq<Location> {
    var (hex, entry) := HexDigits(SkipSpaces(line));
    if hex == [] then [] else [ParseLocation(hex, SkipSpaces(entry))]
  }

  lemma {:induction false} FramesFirst(line: Text, rest: seq<Text>)
    ensures ParseFrames([line] + rest) == FramesOfLine(line) + ParseFrames(rest)
    decreases |rest|
  {
    hide ParseLocation, HexDigits, SkipSpaces;
    var lines := [line] + rest;
    if rest == [] {
      assert lines[..0] == [];
    } else {
      var n := |rest| - 1;
      assert lines[..|lines| - 1] == [line] + rest[..n];
      FramesFirst(line, rest[..n]);
      Join(FramesOfLine(line), ParseFrames(rest[..n]), FramesOfLine(rest[n]));
    }
  }

  lemma {:induction false} ReverseFirst(a: seq<Location>, b: seq<Location>)
    ensures Reverse(a + b) == Reverse(b) + Reverse(a)
    decreases |a|
  {
    if a == [] {
      assert a + b == b;
    } else {
      assert (a + b)[1..] == a[1..] + b;
      ReverseFirst(a[1..], b);
      Join(Reverse(b), Reverse(a[1..]), [a[0]]);
    }
  }

  lemma {:induction false} RemarkRead(indent: Text, remark: Text)
    requires AllBlank(indent) && (remark != [] ==> remark[0] !in " \t0123456789abcdefABCDEF")
    ensures FramesOfLine(indent + remark) == []
  {
    BlankRun(indent, remark);
    SpanIs(remark, IsHex, 0);
  }

  lemma {:induction false} LineRead(f: FrameLine)
    requires IsFrameLine(f)
    ensures f.NoAddress? ==> FramesOfLine(FrameText(f)) == [] && IsPlainFrame(f)
    ensures f.Frame? ==> |FramesOfLine(FrameText(f))| == 1 &&
                         (FramesOfLine(FrameText(f))[0] == f.location <==> IsPlainFrame(f))
  {
    hide ParseLocation, PlainLocation, AllBlank, HexDigits, SkipSpaces, Hex, SymbolField;
    match f
    case NoAddress(indent, remark) => RemarkRead(indent, remark);
    case Frame(indent, location, dso) =>
      HexBack(location.ip);
      AddressRead(indent, Hex(location.ip), SymbolField(location, dso));
      LocationBack(location, dso);
      assert FramesOfLine(FrameText(f)) == [ParseTarget(FrameText(f))];
  }

  /** The frames read are the stack printed exactly if every frame is plain. */
  lemma {:induction false} FramesBack(fs: seq<FrameLine>)
    requires AllFrameLines(fs)
    ensures |ParseFrames(FrameTexts(fs))| == |StackOf(fs)|
    ensures Reverse(ParseFrames(FrameTexts(fs))) == StackOf(fs) <==> AllPlain(fs)
    decreases |fs|
  {
    hide ParseFrames, Reverse, StackOf, AllPlain, IsPlainFrame, IsFrameLine, FramesOfLine, FrameText, FrameTexts;
    NoFrames();
    if fs != [] {
      var line, rest := FrameText(fs[0]), FrameTexts(fs[1..]);
      FirstLine(fs);
      FramesFirst(line, rest);
      ReverseFirst(FramesOfLine(line), ParseFrames(rest));
      LineRead(fs[0]);
      FramesBack(fs[1..]);
      PlainFirst(fs);
      OneReversed(FramesOfLine(line));
      SameEnds(Reverse(ParseFrames(rest)), StackOf(fs[1..]), FramesOfLine(line), OwnFrame(fs[0]));
    }
  }

  lemma {:induction false} FirstLine(fs: seq<FrameLine>)
    requires fs != []
    ensures FrameTexts(fs) == [FrameText(fs[0])] + FrameTexts(fs[1..])
    ensures StackOf(fs) == StackOf(fs[1..]) + OwnFrame(fs[0])
  {
    hide FrameText;
  }

  lemma {:induction false} NoFrames()
    ensures ParseFrames([]) == [] && FrameTexts([]) == [] && Reverse([]) == [] && StackOf([]) == [] && AllPlain([])
  {
  }

  lemma {:induction false} OneReversed(s: seq<Location>)
    requires |s| <= 1
    ensures Reverse(s) == s
  {
  }

  lemma {:induction false} PlainFirst(fs: seq<FrameLine>)
    requires fs != []
    ensures AllPlain(fs) <==> IsPlainFrame(fs[0]) && AllPlain(fs[1..])
  {
    hide IsPlainFrame;
    if AllPlain(fs[1..]) && IsPlainFrame(fs[0]) {
      forall i | 0 <= i < |fs| ensures IsPlainFrame(fs[i]) {
        assert i > 0 ==> fs[i] == fs[1..][i - 1];
      }
    }
  }

  lemma {:induction false} SameEnds(a: seq<Location>, b: seq<Location>, x: seq<Location>, y: seq<Location>)
    requires |a| == |b| && |x| == |y| <= 1
    ensures a + x == b + y <==> a == b && (x == [] || x[0] == y[0])
  {
    if a + x == b + y {
      assert a == (a + x)[..|a|] == (b + y)[..|b|] == b;
      assert x != [] ==> (a + x)[|a|] == x[0] && (b + y)[|b|] == y[0];
    }
  }

  // ----- Main results -----------------------------------------------------------------------

  /** The lines of a sampled stack. */
  function SampleText(h: HeaderLayout, pid: nat, tid: nat, timeNs: Word64, rest: Text, fs: seq<FrameLine>): seq<Text> {
    [HeaderText(h, pid, tid, timeNs, "cycles", rest)] + FrameTexts(fs)
  }

  /** A sampled stack gives back ids, time and stack, outermost frame first, exactly if every frame is
      plain, whatever lines without an address stand among the frames. */
  lemma {:induction false} SampleRoundTrip(h: HeaderLayout, pid: Word32, tid: Word32, timeNs: Word64, rest: Text,
      fs: seq<FrameLine>)
    requires IsHeaderLayout(h) && (rest != [] ==> rest[0] == ' ') && AllFrameLines(fs)
    ensures ParseGroup(SampleText(h, pid, tid, timeNs, rest, fs)) ==
            Some(Ok(pid, tid, timeNs, StacktraceSample(StackOf(fs)))) <==>
            AllPlain(fs)
  {
    hide ParseHeader, ParseDecodeError, HeaderText, IsHeaderLayout, ParseFrames, Reverse, AllPlain, IsName, StackOf;
    SampleNames();
    HeaderBack(h, pid, tid, timeNs, "cycles", rest);
    FramesBack(fs);
    assert SampleText(h, pid, tid, timeNs, rest, fs)[1..] == FrameTexts(fs);
  }

  lemma {:induction false} SampleNames()
    ensures IsName("cycles") && IsName("branch-misses") && IsName("cache-misses") && IsName("cbr") && IsName("psb")
  {
  }

  function MissName(name: SampleEventName): Text {
    match name
    case BranchMisses => "branch-misses"
    case CacheMisses => "cache-misses"
  }

  /** A sampled miss gives back its first frame and its kind, and counts one, exactly if that frame is
      plain; without a frame line it is no event. */
  lemma {:induction false} MissRoundTrip(h: HeaderLayout, pid: Word32, tid: Word32, timeNs: Word64, rest: Text,
      name: SampleEventName, f: FrameLine, more: seq<Text>)
    requires IsHeaderLayout(h) && (rest != [] ==> rest[0] == ' ') && IsFrameLine(f) && f.Frame?
    ensures var line := HeaderText(h, pid, tid, timeNs, MissName(name), rest);
            ParseGroup([line]) == None &&
            (ParseGroup([line, FrameText(f)] + more) ==
              Some(Ok(pid, tid, timeNs, EventSample(f.location, 1, name))) <==>
             IsPlainFrame(f))
  {
    hide ParseHeader, ParseDecodeError, HeaderText, IsHeaderLayout, IsName, ParseLocation, HexDigits, SkipSpaces,
      PlainLocation, IsFrameLine, FrameText;
    SampleNames();
    HeaderBack(h, pid, tid, timeNs, MissName(name), rest);
    LineRead(f);
    assert ([HeaderText(h, pid, tid, timeNs, MissName(name), rest), FrameText(f)] + more)[1] == FrameText(f);
  }

  /** A frequency event gives back its frequency, whatever follows it; a synchronisation event is none. */
  lemma {:induction false} FrequencyRoundTrip(h: HeaderLayout, pid: Word32, tid: Word32, timeNs: Word64, ratio: nat,
      freqMhz: nat, tail: Text)
    requires IsHeaderLayout(h)
    ensures var rest := "   cbr: " + (Decimal(ratio) + (" freq: " + (Decimal(freqMhz) + (" MHz" + tail))));
            ParseGroup([HeaderText(h, pid, tid, timeNs, "cbr", rest)]) ==
            Some(Ok(pid, tid, timeNs, Power(Fit32(freqMhz))))
    ensures ParseGroup([HeaderText(h, pid, tid, timeNs, "psb", [])]) == None
  {
    hide ParseHeader, ParseDecodeError, HeaderText, IsHeaderLayout, IsName, FindFrom, Decimal;
    SampleNames();
    var after := Decimal(freqMhz) + (" MHz" + tail);
    var rest := "   cbr: " + (Decimal(ratio) + (" freq: " + after));
    HeaderBack(h, pid, tid, timeNs, "cbr", rest);
    HeaderBack(h, pid, tid, timeNs, "psb", []);
    FrequencyFound(ratio, after);
    FrequencyRead(freqMhz, tail);
  }

  lemma {:induction false} FrequencyRead(freqMhz: nat, tail: Text)
    ensures ParseDecimal(Decimal(freqMhz) + (" MHz" + tail), TWO_32) == Fit32(freqMhz)
  {
    hide Decimal, ValueOf, Digits;
    DecimalValue(freqMhz);
    DigitsThen(Decimal(freqMhz), " MHz" + tail);
  }

  lemma {:induction false} FrequencyFound(ratio: nat, after: Text)
    ensures var rest := "   cbr: " + (Decimal(ratio) + (" freq: " + after));
            var p := 9 + |Decimal(ratio)|;
            Find(rest, "freq: ") == Some(p) && p + 6 <= |rest| && rest[p + 6..] == after
  {
    hide FindFrom, Decimal;
    DecimalValue(ratio);
    var head: Text := "   cbr: ";
    var d := Decimal(ratio);
    var rest := head + (d + (" freq: " + after));
    var p := 9 + |d|;
    assert rest == (head + d + " ") + ("freq: " + after);
    assert rest[p..p + 6] == "freq: ";
    assert rest[p + 6..] == after;
    forall j | 0 <= j < p ensures !OccursAt(rest, "freq: ", j) {
      OccursChar(rest, "freq: ", j, 0);
      assert rest[j] == (head + d + " ")[j];
      assert j < 8 ==> rest[j] == head[j];
      assert 8 <= j < 8 + |d| ==> rest[j] == d[j - 8];
    }
    FindIs(rest, "freq: ", p);
  }
}
