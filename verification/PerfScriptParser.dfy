/** The parser of `perf script` text (perf_script_parser.cpp): cutting lines into groups, and what a
    group of lines means. */
module PerfScriptParser {
  import opened Texts
  import opened PerfEvent
  import opened TextSearch

  // ----- Parts of a line ----------------------------------------------------------------------

  function ParseBranchKind(kind: Text): Option<BranchKind> {
    if kind == "call" then Some(Call)
    else if kind == "return" then Some(Return)
    else if kind == "jmp" || kind == "jcc" then Some(Jump)
    else if kind == "syscall" then Some(Syscall)
    else if kind == "sysret" then Some(Sysret)
    else if kind == "hw int" then Some(HardwareInterrupt)
    else if kind == "int" then Some(Interrupt)
    else if kind == "iret" then Some(Iret)
    else if kind == "async" then Some(Async)
    else if kind == "tx abrt" then Some(TxAbort)
    else None
  }

  /** Takes "tr strt" off; " jmp" after it stands for the kind whatever follows. */
  function AfterStart(raw: Text): Text
    requires "tr strt" <= raw
  {
    var rest := raw[7..];
    if " jmp" <= rest then "jmp" else if " " <= rest then rest[1..] else rest
  }

  function AfterEnd(raw: Text): Text
    requires "tr end" <= raw
  {
    var rest := raw[6..];
    if "  " <= rest then rest[2..] else if " " <= rest then rest[1..] else rest
  }

  function ParseKindAndTrace(raw: Text): (Option<BranchKind>, TraceState) {
    var starts := "tr strt" <= raw;
    var body := if starts then AfterStart(raw) else raw;
    var ends := "tr end" <= body;
    var kind := ParseBranchKind(if ends then AfterEnd(body) else body);
    (kind, if starts && !ends then Start else if !starts && ends then End else Unchanged)
  }

  /** Fractions are padded or cut to nine digits; the sum is on unsigned 64-bit words. */
  function ParseTime(hi: Text, lo: Text): Word64 {
    var nine := lo[..Min(|lo|, 9)] + seq(9 - Min(|lo|, 9), _ => '0');
    (ParseDecimal(hi, TWO_64) * 1_000_000_000 + ParseDecimal(nine, TWO_64)) % TWO_64
  }

  /** A 64-bit value cut to 32 bits and read as signed. */
  function ToInt32(n: nat): Int32 {
    var low := n % TWO_32;
    if low < 0x8000_0000 then low else low - TWO_32
  }

  function ParseSymbolAndOffset(str: Text): (Text, Int32) {
    match RFind(str, "+0x")
    case Some(plus) =>
      var start := str[plus + 1..];
      var hex := match Find(start, " ") case Some(space) => start[..space] case None => start;
      (str[..plus], ToInt32(ParseHex64(hex)))
    case None => ("[unknown]", 0)
  }

  function ParseLocation(ipHex: Text, symbol: Text): Location {
    var (name, offset) := ParseSymbolAndOffset(symbol);
    Location(ParseHex64(ipHex), name, offset)
  }

  // ----- Decode errors ------------------------------------------------------------------------

  function TimeField(s: Text): Option<Word64> {
    match Find(s, "time ")
    case None => None
    case Some(p) =>
      var (hi, t) := Digits(s[p + 5..]);
      if "." <= t then Some(ParseTime(hi, Digits(t[1..]).0)) else None
  }

  function IdField(s: Text, name: Text): Word32 {
    match Find(s, name)
    case None => 0
    case Some(p) => ParseInt32(s[p + |name|..]) % TWO_32
  }

  function IpField(s: Text): Option<Word64> {
    match Find(s, "ip ")
    case None => None
    case Some(p) =>
      var i := s[p + 3..];
      var ip := match Find(i, " ") case Some(space) => i[..space] case None => i;
      if ip != "0" then Some(ParseHex64(ip)) else None
  }

  function MessageField(s: Text): Text {
    match Find(s, "code ")
    case None => []
    case Some(p) =>
      match Find(s[p..], ": ")
      case None => []
      case Some(colon) => s[p + colon + 2..]
  }

  function ParseDecodeError(line: Text): Option<Event> {
    var s := SkipSpaces(line);
    if !("instruction trace error" <= s) then None
    else Some(DecodeError(IdField(s, "pid "), IdField(s, "tid "), TimeField(s), IpField(s), MessageField(s)))
  }

  // ----- Branch lines -------------------------------------------------------------------------

  /** How long the run of lower-case hex digits at `i` is. */
  function HexRun(s: Text, i: nat): nat
    requires i <= |s|
  {
    Span(s[i..], IsLowerHex)
  }

  /** An address starts at `i`: hex digits between two spaces. */
  predicate AddressAt(s: Text, i: nat) {
    1 <= i < |s| && s[i - 1] == ' ' && HexRun(s, i) > 0 &&
    i + HexRun(s, i) < |s| && s[i + HexRun(s, i)] == ' '
  }

  function AddressStart(s: Text, i: nat): (r: Option<nat>)
    ensures r.Some? ==> r.value < |s| && AddressAt(s, r.value)
    decreases |s| - i
  {
    if i >= |s| then None
    else if AddressAt(s, i) then Some(i)
    else AddressStart(s, i + 1)
  }

  function TrimRight(s: Text): Text {
    if s != [] && s[|s| - 1] == ' ' then TrimRight(s[..|s| - 1]) else s
  }

  predicate EndsWith(s: Text, p: Text) {
    |p| <= |s| && s[|s| - |p|..] == p
  }

  function TrimKind(s: Text): Text {
    var t := TrimRight(s);
    if EndsWith(t, "(x)") then TrimRight(t[..|t| - 3]) else t
  }

  function ParseBranch(rest: Text): Option<BranchData> {
    var r := SkipSpaces(rest);
    match Find(r, " => ")
    case None => None
    case Some(arrow) =>
      var before, after := r[..arrow], r[arrow + 4..];
      match AddressStart(before, 1)
      case None => None
      case Some(addr) =>
        var (kind, traceState) := ParseKindAndTrace(TrimKind(before[..addr]));
        Some(BranchData(kind, traceState, Contains(before, "(x)"), ParseSource(before[addr..]), ParseTarget(after)))
  }

  function ParseSource(source: Text): Location {
    match Find(source, " ")
    case Some(space) => ParseLocation(source[..space], SkipSpaces(source[space..]))
    case None => ParseLocation(source, [])
  }

  function ParseTarget(target: Text): Location {
    var (ip, symbol) := HexDigits(SkipSpaces(target));
    ParseLocation(ip, SkipSpaces(symbol))
  }

  // ----- Groups -----------------------------------------------------------------------------------

  datatype Header = Header(pid: Word32, tid: Word32, timeNs: Word64, name: Text, rest: Text)

  predicate NotNameEnd(c: Byte) {
    c != '/' && c != ':' && c != ' '
  }

  predicate NotSpace(c: Byte) {
    c != ' '
  }

  /** "pid/tid" and what follows. */
  function ParseIds(line: Text): Option<(Word32, Word32, Text)> {
    var (pid, a) := Digits(SkipSpaces(line));
    if pid == [] || !("/" <= a) then None
    else
      var (tid, b) := Digits(a[1..]);
      Some((ParseDecimal(pid, TWO_32), ParseDecimal(tid, TWO_32), b))
  }

  /** "seconds.fraction:" and what follows. */
  function ParseStamp(s: Text): Option<(Word64, Text)> {
    var (hi, c) := Digits(SkipSpaces(s));
    if !("." <= c) then None
    else
      var (lo, d) := Digits(c[1..]);
      if !(":" <= d) then None else Some((ParseTime(hi, lo), d[1..]))
  }

  /** The event name after the period, and what follows its configuration. */
  function ParseName(s: Text): (Text, Text) {
    var f := SkipSpaces(Digits(SkipSpaces(s)).1);
    var n := Span(f, NotNameEnd);
    var g := f[n..];
    (f[..n], g[Span(g, NotSpace)..])
  }

  function ParseHeader(line: Text): Option<Header> {
    match ParseIds(line)
    case None => None
    case Some((pid, tid, a)) =>
      match ParseStamp(a)
      case None => None
      case Some((time, b)) =>
        var (name, rest) := ParseName(b);
        Some(Header(pid, tid, time, name, rest))
  }

  /** The frames of a sampled stack, innermost first as perf prints them. */
  function ParseFrames(lines: seq<Text>): seq<Location> {
    if lines == [] then []
    else
      var (hex, entry) := HexDigits(SkipSpaces(lines[|lines| - 1]));
      ParseFrames(lines[..|lines| - 1]) + (if hex == [] then [] else [ParseLocation(hex, SkipSpaces(entry))])
  }

  function Reverse(s: seq<Location>): (r: seq<Location>)
    ensures |r| == |s| && forall i :: 0 <= i < |s| ==> r[i] == s[|s| - 1 - i]
  {
    if s == [] then [] else Reverse(s[1..]) + [s[0]]
  }

  function ParseData(h: Header, lines: seq<Text>): Option<EventData>
    requires lines != []
  {
    if h.name == "branches" then
      match ParseBranch(h.rest) case Some(br) => Some(Branch(br)) case None => None
    else if h.name == "cbr" then
      match Find(h.rest, "freq: ")
      case Some(p) => Some(Power(ParseDecimal(h.rest[p + 6..], TWO_32)))
      case None => None
    else if h.name == "cycles" then Some(StacktraceSample(Reverse(ParseFrames(lines[1..]))))
    else if (h.name == "branch-misses" || h.name == "cache-misses") && |lines| > 1 then
      var (hex, entry) := HexDigits(SkipSpaces(lines[1]));
      Some(EventSample(ParseLocation(hex, SkipSpaces(entry)), 1,
        if h.name == "branch-misses" then BranchMisses else CacheMisses))
    else None
  }

  function ParseGroup(lines: seq<Text>): Option<Event> {
    if lines == [] then None
    else
      match ParseDecodeError(lines[0])
      case Some(err) => Some(err)
      case None =>
        match ParseHeader(lines[0])
        case None => None
        case Some(h) =>
          match ParseData(h, lines)
          case None => None
          case Some(data) => Some(Ok(h.pid, h.tid, h.timeNs, data))
  }

  predicate IsContinuation(line: Text) {
    line != [] && line[0] == '\t'
  }

  // ----- The parser itself --------------------------------------------------------------------

  class PerfScriptParser {
    var accumulatedLines: seq<Text>

    constructor ()
      ensures accumulatedLines == []
    {
      accumulatedLines := [];
    }

    method FlushAccumulated() returns (event: Option<Event>)
      modifies this
      ensures event == ParseGroup(old(accumulatedLines)) && accumulatedLines == []
    {
      if accumulatedLines == [] {
        return None;
      }
      event := DoParseGroup(accumulatedLines);
      accumulatedLines := [];
    }

    method FeedLine(line: Text) returns (event: Option<Event>)
      modifies this
      ensures (accumulatedLines, event) == Feed(old(accumulatedLines), line)
    {
      if line == [] {
        event := FlushAccumulated();
        return;
      }
      if IsContinuation(line) {
        accumulatedLines := accumulatedLines + [line];
        return None;
      }
      event := FlushAccumulated();
      accumulatedLines := accumulatedLines + [line];
      assert accumulatedLines == [line];
    }

    method Finish() returns (event: Option<Event>)
      modifies this
      ensures event == ParseGroup(old(accumulatedLines)) && accumulatedLines == []
    {
      event := FlushAccumulated();
    }

    /** The scan of a branch line for its source address. */
    static method FindAddress(s: Text) returns (start: Option<nat>)
      ensures start == AddressStart(s, 1)
    {
      var i := 1;
      while i < |s|
        invariant AddressStart(s, i) == AddressStart(s, 1)
        decreases |s| - i
      {
        if s[i - 1] == ' ' && IsLowerHex(s[i]) {
          var j := i;
          while j < |s| && IsLowerHex(s[j])
            invariant i <= j <= |s|
            invariant forall k :: i <= k < j ==> IsLowerHex(s[k])
          {
            j := j + 1;
          }
          SpanIs(s[i..], IsLowerHex, j - i);
          if j - i >= 1 && j < |s| && s[j] == ' ' {
            return Some(i);
          }
        }
        i := i + 1;
      }
      return None;
    }

    /** Drops trailing spaces. */
    static method TrimSpaces(s: Text) returns (t: Text)
      ensures t == TrimRight(s)
    {
      t := s;
      while t != [] && t[|t| - 1] == ' '
        invariant TrimRight(t) == TrimRight(s)
        decreases |t|
      {
        t := t[..|t| - 1];
      }
    }

    static method DoParseBranch(rest: Text) returns (data: Option<BranchData>)
      ensures data == ParseBranch(rest)
    {
      hide ParseKindAndTrace, ParseLocation, ParseSource, AddressAt, SkipSpaces, HexDigits, FindFrom;
      var r := SkipSpaces(rest);
      var arrow := Find(r, " => ");
      if arrow.None? {
        return None;
      }
      var before, after := r[..arrow.value], r[arrow.value + 4..];
      var inTransaction := Find(before, "(x)").Some?;
      var addr := FindAddress(before);
      if addr.None? {
        return None;
      }
      var rawKind := TrimSpaces(before[..addr.value]);
      if EndsWith(rawKind, "(x)") {
        rawKind := TrimSpaces(rawKind[..|rawKind| - 3]);
      }
      var src := ParseSource(before[addr.value..]);
      var ip, symbol := ConsumeHex(SkipSpaces(after));
      var (kind, traceState) := ParseKindAndTrace(rawKind);
      return Some(BranchData(kind, traceState, inTransaction, src, ParseLocation(ip, SkipSpaces(symbol))));
    }

    static method DoParseFrames(lines: seq<Text>) returns (frames: seq<Location>)
      ensures frames == ParseFrames(lines)
    {
      frames := [];
      for i := 0 to |lines|
        invariant frames == ParseFrames(lines[..i])
      {
        assert lines[..i + 1][..i] == lines[..i];
        var entry := SkipSpaces(lines[i]);
        if entry != [] {
          var hex, rest := ConsumeHex(entry);
          if hex != [] {
            frames := frames + [ParseLocation(hex, SkipSpaces(rest))];
          }
        }
      }
      assert lines[..|lines|] == lines;
    }

    static method DoParseIds(line: Text) returns (ids: Option<(Word32, Word32, Text)>)
      ensures ids == ParseIds(line)
    {
      var s := SkipSpaces(line);
      if s == [] {
        return None;
      }
      var pid, a := ConsumeDigits(s);
      if pid == [] || a == [] || a[0] != '/' {
        return None;
      }
      var tid, b := ConsumeDigits(a[1..]);
      return Some((ParseDecimal(pid, TWO_32), ParseDecimal(tid, TWO_32), b));
    }

    static method DoParseStamp(s: Text) returns (stamp: Option<(Word64, Text)>)
      ensures stamp == ParseStamp(s)
    {
      hide ParseTime;
      var hi, c := ConsumeDigits(SkipSpaces(s));
      if c == [] || c[0] != '.' {
        return None;
      }
      var lo, d := ConsumeDigits(c[1..]);
      if d == [] || d[0] != ':' {
        return None;
      }
      return Some((ParseTime(hi, lo), d[1..]));
    }

    /** The event name ends at a slash, a colon or a space. */
    static method FindNameEnd(f: Text) returns (nameEnd: nat)
      ensures nameEnd == Span(f, NotNameEnd)
    {
      nameEnd := 0;
      while nameEnd < |f| && f[nameEnd] != '/' && f[nameEnd] != ':' && f[nameEnd] != ' '
        invariant nameEnd <= |f| && forall k :: 0 <= k < nameEnd ==> NotNameEnd(f[k])
      {
        nameEnd := nameEnd + 1;
      }
      SpanIs(f, NotNameEnd, nameEnd);
    }

    /** Drops the configuration right after the event name. */
    static method SkipConfig(g: Text) returns (rest: Text)
      ensures rest == g[Span(g, NotSpace)..]
    {
      rest := g;
      ghost var n := 0;
      while rest != [] && rest[0] != ' '
        invariant n <= |g| && rest == g[n..] && forall k :: 0 <= k < n ==> NotSpace(g[k])
        decreases |rest|
      {
        rest := rest[1..];
        n := n + 1;
      }
      SpanIs(g, NotSpace, n);
    }

    static method DoParseName(s: Text) returns (name: Text, rest: Text)
      ensures (name, rest) == ParseName(s)
    {
      hide Span;
      var period, e := ConsumeDigits(SkipSpaces(s));
      var f := SkipSpaces(e);
      var nameEnd := FindNameEnd(f);
      name := f[..nameEnd];
      rest := SkipConfig(f[nameEnd..]);
    }

    static method DoParseHeader(line: Text) returns (header: Option<Header>)
      ensures header == ParseHeader(line)
    {
      hide ParseIds, ParseStamp, ParseName;
      var ids := DoParseIds(line);
      if ids.None? {
        return None;
      }
      var stamp := DoParseStamp(ids.value.2);
      if stamp.None? {
        return None;
      }
      var name, rest := DoParseName(stamp.value.1);
      return Some(Header(ids.value.0, ids.value.1, stamp.value.0, name, rest));
    }

    static method DoParseGroup(lines: seq<Text>) returns (event: Option<Event>)
      ensures event == ParseGroup(lines)
    {
      hide ParseBranch, ParseFrames, Reverse, ParseDecodeError, ParseHeader, ParseLocation, HexDigits, Find, SkipSpaces;
      if lines == [] {
        return None;
      }
      event := ParseDecodeError(lines[0]);
      if event.Some? {
        return event;
      }
      var header := DoParseHeader(lines[0]);
      if header.None? {
        return None;
      }
      var h := header.value;
      var data: Option<EventData> := None;
      if h.name == "branches" {
        var branch := DoParseBranch(h.rest);
        if branch.Some? {
          data := Some(Branch(branch.value));
        }
      } else if h.name == "cycles" {
        var frames := DoParseFrames(lines[1..]);
        data := Some(StacktraceSample(Reverse(frames)));
      } else {
        data := ParseData(h, lines);
      }
      event := if data.Some? then Some(Ok(h.pid, h.tid, h.timeNs, data.value)) else None;
    }
  }

  // ----- Feeding lines ------------------------------------------------------------------------

  /** What one line does to the accumulated ones, and the event it completes. */
  function Feed(acc: seq<Text>, line: Text): (seq<Text>, Option<Event>) {
    if line == [] then ([], ParseGroup(acc))
    else if IsContinuation(line) then (acc + [line], None)
    else ([line], ParseGroup(acc))
  }

  function Events(e: Option<Event>): seq<Event> {
    match e case Some(event) => [event] case None => []
  }

  /** The events of feeding the lines one by one and then finishing, from `acc` accumulated lines. */
  function Stream(acc: seq<Text>, lines: seq<Text>): seq<Event>
    decreases |lines|
  {
    if lines == [] then Events(ParseGroup(acc))
    else
      var (next, event) := Feed(acc, lines[0]);
      Events(event) + Stream(next, lines[1..])
  }

  // ----- Cutting into groups ------------------------------------------------------------------

  /** How many continuation lines come first. */
  function Continuations(lines: seq<Text>): (n: nat)
    ensures n <= |lines|
  {
    if lines == [] || !IsContinuation(lines[0]) then 0 else 1 + Continuations(lines[1..])
  }

  /** The whole input cut at blank lines and before each line that is not a continuation. */
  function Groups(lines: seq<Text>): seq<seq<Text>>
    decreases |lines|
  {
    if lines == [] then []
    else if lines[0] == [] then Groups(lines[1..])
    else
      var n := 1 + Continuations(lines[1..]);
      [lines[..n]] + Groups(lines[n..])
  }

  /** The groups that mean something, in order. */
  function ParseAll(groups: seq<seq<Text>>): seq<Event> {
    if groups == [] then [] else Events(ParseGroup(groups[0])) + ParseAll(groups[1..])
  }

  /** A group that may still grow. */
  predicate Open(acc: seq<Text>) {
    acc != [] ==> acc[0] != [] && forall i :: 1 <= i < |acc| ==> IsContinuation(acc[i])
  }

  lemma {:induction false} ContinuationsOf(acc: seq<Text>, rest: seq<Text>)
    requires (forall i :: 0 <= i < |acc| ==> IsContinuation(acc[i])) && (rest == [] || !IsContinuation(rest[0]))
    ensures Continuations(acc + rest) == |acc|
    decreases |acc|
  {
    if acc == [] {
      assert acc + rest == rest;
    } else {
      assert (acc + rest)[1..] == acc[1..] + rest;
      ContinuationsOf(acc[1..], rest);
    }
  }

  /** A group ends where no continuation follows. */
  lemma {:induction false} GroupEnds(acc: seq<Text>, rest: seq<Text>)
    requires acc != [] && Open(acc) && (rest == [] || !IsContinuation(rest[0]))
    ensures Groups(acc + rest) == [acc] + Groups(rest)
  {
    assert (acc + rest)[1..] == acc[1..] + rest;
    ContinuationsOf(acc[1..], rest);
    assert (acc + rest)[..|acc|] == acc && (acc + rest)[|acc|..] == rest;
  }

  lemma {:induction false} StreamIsBatch(acc: seq<Text>, lines: seq<Text>)
    requires Open(acc)
    ensures Stream(acc, lines) == ParseAll(Groups(acc + lines))
    decreases |lines|
  {
    hide ParseGroup;
    if lines == [] {
      assert acc + lines == acc + [];
      ParseOpen(acc, []);
    } else {
      var line, rest := lines[0], lines[1..];
      var next := Feed(acc, line).0;
      StreamIsBatch(next, rest);
      if line != [] && IsContinuation(line) {
        assert acc + lines == next + rest;
      } else {
        ParseOpen(acc, lines);
        if line == [] {
          assert [] + rest == rest;
        } else {
          assert [line] + rest == lines;
        }
      }
    }
  }

  /** What is accumulated is the first group, if anything is. */
  lemma {:induction false} ParseOpen(acc: seq<Text>, rest: seq<Text>)
    requires Open(acc) && (rest == [] || !IsContinuation(rest[0]))
    ensures ParseAll(Groups(acc + rest)) == Events(ParseGroup(acc)) + ParseAll(Groups(rest))
  {
    if acc == [] {
      assert acc + rest == rest;
    } else {
      GroupEnds(acc, rest);
      assert ([acc] + Groups(rest))[1..] == Groups(rest);
    }
  }

  function NonBlank(lines: seq<Text>): seq<Text> {
    if lines == [] then [] else (if lines[0] == [] then [] else [lines[0]]) + NonBlank(lines[1..])
  }

  function Concat(groups: seq<seq<Text>>): seq<Text> {
    if groups == [] then [] else groups[0] + Concat(groups[1..])
  }

  // ----- Main results -----------------------------------------------------------------------

  /** Feeding line by line and finishing yields exactly the parses of the groups of the whole input. */
  lemma {:induction false} StreamingEqualsBatch(lines: seq<Text>)
    ensures Stream([], lines) == ParseAll(Groups(lines))
  {
    StreamIsBatch([], lines);
    assert [] + lines == lines;
  }

  /** The groups hold every non-blank line once, in order; each has one first line followed by
      continuations only. */
  lemma {:induction false} GroupsPartition(lines: seq<Text>)
    ensures Concat(Groups(lines)) == NonBlank(lines)
    ensures forall g :: g in Groups(lines) ==> g != [] && Open(g)
    decreases |lines|
  {
    if lines != [] {
      if lines[0] == [] {
        GroupsPartition(lines[1..]);
      } else {
        var n := 1 + Continuations(lines[1..]);
        GroupsPartition(lines[n..]);
        ContinuationsAre(lines[1..]);
        NonBlankSplit(lines, n);
        assert ([lines[..n]] + Groups(lines[n..]))[1..] == Groups(lines[n..]);
      }
    }
  }

  lemma {:induction false} ContinuationsAre(lines: seq<Text>)
    ensures forall i :: 0 <= i < Continuations(lines) ==> IsContinuation(lines[i])
    decreases |lines|
  {
    if lines != [] && IsContinuation(lines[0]) {
      ContinuationsAre(lines[1..]);
    }
  }

  lemma {:induction false} NonBlankSplit(lines: seq<Text>, n: nat)
    requires n <= |lines| && forall i :: 0 <= i < n ==> lines[i] != []
    ensures NonBlank(lines) == lines[..n] + NonBlank(lines[n..])
    decreases n
  {
    if n == 0 {
      assert lines[0..] == lines;
    } else {
      NonBlankSplit(lines[1..], n - 1);
      assert lines[1..][n - 1..] == lines[n..];
      assert lines[..n] == [lines[0]] + lines[1..][..n - 1];
    }
  }
}
