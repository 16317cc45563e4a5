/** Printing a branch event the way perf does, and reading it back. */
module BranchLine {
  import opened Texts
  import opened PerfEvent
  import opened TextSearch
  import opened PerfScriptParser
  import opened HeaderLine

  // ----- Printing ---------------------------------------------------------------------------

  /** perf tells conditional jumps from others; the event does not. */
  function KindText(kind: BranchKind, conditional: bool): Text {
    match kind
    case Call => "call"
    case Return => "return"
    case Jump => if conditional then "jcc" else "jmp"
    case Syscall => "syscall"
    case Sysret => "sysret"
    case HardwareInterrupt => "hw int"
    case Interrupt => "int"
    case Iret => "iret"
    case Async => "async"
    case TxAbort => "tx abrt"
  }

  function KindField(kind: Option<BranchKind>, traceState: TraceState, conditional: bool): Text {
    match traceState
    case Unchanged => (match kind case None => [] case Some(k) => KindText(k, conditional))
    case Start => (match kind case None => "tr strt" case Some(k) => "tr strt" + " " + KindText(k, conditional))
    case End => (match kind case None => "tr end" case Some(k) => "tr end " + " " + KindText(k, conditional))
  }

  function FlagField(kindField: Text, inTransaction: bool): Text {
    if !inTransaction then [] else if kindField == [] then "(x)" else " (x)"
  }

  /** Kind, transaction flag and the blanks before the source address. */
  function Prefix(br: BranchData, l: Layout): Text {
    var kind := KindField(br.kind, br.traceState, l.conditional);
    kind + FlagField(kind, br.inTransaction) + Spaces(l.srcBlanks)
  }

  /** The object a location lies in, and whether perf knows a symbol there. */
  datatype Object = Resolved(name: Text) | Unresolved(name: Text)

  function SymbolField(loc: Location, dso: Object): Text {
    match dso
    case Resolved(name) => loc.symbol + ("+0x" + (Hex(loc.symbolOffset % TWO_32) + (" (" + (name + ")"))))
    case Unresolved(name) => "[unknown]" + (" (" + (name + ")"))
  }

  function LocationField(loc: Location, dso: Object): Text {
    Hex(loc.ip) + (" " + SymbolField(loc, dso))
  }

  /** The objects the two locations lie in, how far perf indents the addresses, and whether a jump is
      conditional. */
  datatype Layout = Layout(srcDso: Object, dstDso: Object, srcBlanks: nat, dstBlanks: nat, conditional: bool)

  function Body(br: BranchData, l: Layout): Text {
    (Prefix(br, l) + LocationField(br.src, l.srcDso)) +
    (" => " + (Spaces(l.dstBlanks) + LocationField(br.dst, l.dstDso)))
  }

  /** The line of a branch event. */
  function Print(h: HeaderLayout, pid: Word32, tid: Word32, timeNs: Word64, br: BranchData, l: Layout): Text {
    HeaderText(h, pid, tid, timeNs, "branches", "   " + Body(br, l))
  }

  // ----- What can be printed ------------------------------------------------------------------

  /** A location without a symbol has the name that stands for none. */
  predicate IsShown(loc: Location, dso: Object) {
    dso.Unresolved? ==> loc.symbol == "[unknown]" && loc.symbolOffset == 0
  }

  /** Something stands before the source address, and blanks after it; and the target has a symbol unless
      the source text is free of arrows. */
  predicate Framed(br: BranchData, l: Layout) {
    (br.kind.Some? || br.traceState != Unchanged || br.inTransaction) && l.srcBlanks > 0 &&
    IsShown(br.src, l.srcDso) && IsShown(br.dst, l.dstDso) && (l.dstDso.Resolved? || NoEarlyArrow(br, l))
  }

  /** The first arrow is not within the source text. */
  predicate NoEarlyArrow(br: BranchData, l: Layout) {
    !Contains(" " + SymbolField(br.src, l.srcDso), " => ")
  }

  /** A location's symbol begins with no blank, and its object's name holds no offset mark. */
  predicate PlainLocation(loc: Location, dso: Object) {
    NoBlankFirst(loc.symbol) && !Contains(dso.name, "+0x")
  }

  /** The parts do not look like the marks the parser searches for in them. */
  predicate PlainParts(br: BranchData, l: Layout) {
    && NoEarlyArrow(br, l)
    && PlainLocation(br.src, l.srcDso) && PlainLocation(br.dst, l.dstDso)
    && (br.inTransaction || !Contains(SymbolField(br.src, l.srcDso), "(x)"))
  }

  // ----- Symbols and locations ----------------------------------------------------------------

  lemma {:induction false} HexBack(n: Word64)
    ensures ParseHex64(Hex(n)) == n && ParseHex64("0x" + Hex(n)) == n
    ensures forall i :: 0 <= i < |Hex(n)| ==> IsLowerHex(Hex(n)[i])
  {
    HexValue(n);
    var t := Hex(n);
    assert t + [] == t;
    HexThen(t, []);
    assert StripHexPrefix(t) == t by {
      assert |t| >= 2 ==> IsHex(t[1]);
    }
    assert "0x" <= "0x" + t && ("0x" + t)[2..] == t;
  }

  lemma {:induction false} OffsetBack(offset: Int32)
    ensures ToInt32(offset % TWO_32) == offset
  {
  }

  lemma {:induction false} SymbolBack(loc: Location, dso: Object)
    requires IsShown(loc, dso) && !Contains(dso.name, "+0x")
    ensures ParseSymbolAndOffset(SymbolField(loc, dso)) == (loc.symbol, loc.symbolOffset)
  {
    hide ParseHex64, FindFrom, FindLast, Hex, OccursAt, ToInt32;
    if dso.Resolved? {
      var hex := Hex(loc.symbolOffset % TWO_32);
      HexBack(loc.symbolOffset % TWO_32);
      OffsetBack(loc.symbolOffset);
      LastMark(loc.symbol, hex, dso.name);
      AroundPlus(loc.symbol, hex, " (" + (dso.name + ")"));
      UpToSpace("0x" + hex, dso.name);
    } else {
      NoMark(dso.name);
    }
  }

  /** What is printed for no symbol holds no offset mark. */
  lemma {:induction false} NoMark(dso: Text)
    requires !Contains(dso, "+0x")
    ensures RFind("[unknown]" + (" (" + (dso + ")")), "+0x") == None
  {
    hide FindFrom, FindLast;
    var head: Text := "[unknown] (";
    var s := "[unknown]" + (" (" + (dso + ")"));
    assert s == head + dso + ")";
    assert s[11..|s| - 1] == dso && s[|s| - 1] == ')';
    assert forall i :: 0 <= i < 11 ==> s[i] == head[i] != '+';
    forall j | 0 <= j <= |s| ensures !OccursAt(s, "+0x", j) {
      if j + 3 <= |s| {
        OccursChar(s, "+0x", j, 0);
        OccursChar(s, "+0x", j, 2);
        OccursWithin(s, 11, |s| - 1, "+0x", j);
      }
    }
  }

  lemma {:induction false} AroundPlus(symbol: Text, hex: Text, rest: Text)
    ensures var s := symbol + ("+0x" + (hex + rest));
            s[..|symbol|] == symbol && s[|symbol| + 1..] == ("0x" + hex) + rest
  {
    assert ("+0x" + (hex + rest))[1..] == ("0x" + hex) + rest;
  }

  lemma {:induction false} UpToSpace(word: Text, dso: Text)
    requires forall i :: 0 <= i < |word| ==> word[i] != ' '
    ensures var s := word + (" (" + (dso + ")")); Find(s, " ") == Some(|word|) && s[..|word|] == word
  {
    FirstSpace(word, "(" + (dso + ")"));
    assert " (" + (dso + ")") == " " + ("(" + (dso + ")"));
  }

  lemma {:induction false} OccursChars(s: Text, p: Text, j: nat)
    ensures OccursAt(s, p, j) ==> j + |p| <= |s| && forall k :: 0 <= k < |p| ==> s[j + k] == p[k]
  {
    if OccursAt(s, p, j) {
      forall k | 0 <= k < |p| ensures s[j + k] == p[k] {
        assert s[j..j + |p|][k] == p[k];
      }
    }
  }

  lemma {:induction false} OccursChar(s: Text, p: Text, j: nat, k: nat)
    requires k < |p| && j + k < |s|
    ensures OccursAt(s, p, j) ==> s[j + k] == p[k]
  {
    OccursChars(s, p, j);
  }

  /** An occurrence that lies within a part of the text occurs in that part. */
  lemma {:induction false} OccursWithin(s: Text, from: nat, to: nat, p: Text, j: nat)
    requires from <= to <= |s|
    ensures OccursAt(s, p, j) && from <= j && j + |p| <= to ==> OccursAt(s[from..to], p, j - from)
  {
    if OccursAt(s, p, j) && from <= j && j + |p| <= to {
      OccursChars(s, p, j);
      var part := s[from..to];
      forall k | 0 <= k < |p| ensures part[j - from..j - from + |p|][k] == p[k] {
        assert part[j - from + k] == s[j + k];
      }
    }
  }

  /** The last "+0x" is the one before the offset. */
  lemma {:induction false} LastMark(symbol: Text, hex: Text, dso: Text)
    requires !Contains(dso, "+0x") && forall i :: 0 <= i < |hex| ==> IsLowerHex(hex[i])
    ensures RFind(symbol + ("+0x" + (hex + (" (" + (dso + ")")))), "+0x") == Some(|symbol|)
  {
    hide FindFrom, FindLast;
    var s := symbol + ("+0x" + (hex + (" (" + (dso + ")"))));
    var k, d := |symbol|, |symbol| + 3 + |hex| + 2;
    assert s[k..k + 3] == "+0x";
    assert s[k + 1] == '0' && s[k + 2] == 'x' && s[d - 2] == ' ' && s[d - 1] == '(' && s[|s| - 1] == ')';
    assert forall j :: k + 3 <= j < d - 2 ==> s[j] == hex[j - k - 3];
    assert s[d..|s| - 1] == dso;
    forall j | k < j <= |s| ensures !OccursAt(s, "+0x", j) {
      NoMarkAfter(s, k, d, j);
    }
    RFindIs(s, "+0x", k);
  }

  lemma {:induction false} NoMarkAfter(s: Text, k: nat, d: nat, j: nat)
    requires k + 5 <= d < |s| && k < j && !Contains(s[d..|s| - 1], "+0x")
    requires s[k + 1] == '0' && s[k + 2] == 'x' && s[d - 2] == ' ' && s[d - 1] == '(' && s[|s| - 1] == ')'
    requires forall i :: k + 3 <= i < d - 2 ==> IsLowerHex(s[i])
    ensures !OccursAt(s, "+0x", j)
  {
    hide FindFrom;
    if j + 3 <= |s| {
      OccursChar(s, "+0x", j, 0);
      OccursChar(s, "+0x", j, 2);
      OccursWithin(s, d, |s| - 1, "+0x", j);
    }
  }

  lemma {:induction false} FirstSpace(word: Text, rest: Text)
    requires forall i :: 0 <= i < |word| ==> word[i] != ' '
    ensures Find(word + (" " + rest), " ") == Some(|word|)
  {
    var s := word + (" " + rest);
    assert s[|word|..|word| + 1] == " ";
    forall j | 0 <= j < |word| ensures !OccursAt(s, " ", j) {
      assert s[j] == word[j];
      OccursChars(s, " ", j);
    }
    FindIs(s, " ", |word|);
  }

  /** A symbol and offset read from after the blanks are the location's exactly if it is plain. */
  lemma {:induction false} SymbolBackExactly(loc: Location, dso: Object)
    requires IsShown(loc, dso)
    ensures ParseSymbolAndOffset(SkipSpaces(" " + SymbolField(loc, dso))) == (loc.symbol, loc.symbolOffset) <==>
            PlainLocation(loc, dso)
  {
    hide ParseHex64, FindFrom, Span, RFind;
    var sym := SymbolField(loc, dso);
    var rest := SkipSpaces(" " + sym);
    if !NoBlankFirst(loc.symbol) {
      assert rest == [] || !IsBlank(rest[0]);
      NameStart(rest);
    } else {
      assert " " + sym == Spaces(1) + sym && NoBlankFirst(sym);
      BlanksThen(1, sym);
      if Contains(dso.name, "+0x") {
        LaterMark(loc, dso);
      } else {
        SymbolBack(loc, dso);
      }
    }
  }

  /** A parsed symbol is empty or begins as the text does, or is the unknown one. */
  lemma {:induction false} NameStart(text: Text)
    ensures var name := ParseSymbolAndOffset(text).0;
            name == [] || name[0] == '[' || (text != [] && name[0] == text[0])
  {
    hide FindLast, ParseHex64;
  }

  /** An offset mark in the object's name is taken for the symbol's. */
  lemma {:induction false} LaterMark(loc: Location, dso: Object)
    requires IsShown(loc, dso) && Contains(dso.name, "+0x")
    ensures |ParseSymbolAndOffset(SymbolField(loc, dso)).0| > |loc.symbol|
  {
    hide ParseHex64, FindFrom;
    var s := SymbolField(loc, dso);
    var head :=
      if dso.Resolved? then loc.symbol + ("+0x" + Hex(loc.symbolOffset % TWO_32)) + " (" else loc.symbol + " (";
    assert s == head + (dso.name + ")");
    var i := Find(dso.name, "+0x").value;
    assert s[|head| + i..|head| + i + 3] == dso.name[i..i + 3];
    assert OccursAt(s, "+0x", |head| + i);
  }

  /** Either way of reading a printed location gives it back exactly if it is plain. */
  lemma {:induction false} LocationBack(loc: Location, dso: Object)
    requires IsShown(loc, dso)
    ensures ParseSource(LocationField(loc, dso)) == loc <==> PlainLocation(loc, dso)
    ensures forall blanks :: AllBlank(blanks) ==>
              (ParseTarget(blanks + LocationField(loc, dso)) == loc <==> PlainLocation(loc, dso))
  {
    hide ParseHex64, ParseSymbolAndOffset, FindFrom, PlainLocation, AllBlank;
    var hex, sym := Hex(loc.ip), SymbolField(loc, dso);
    var s := LocationField(loc, dso);
    HexBack(loc.ip);
    SymbolBackExactly(loc, dso);
    FirstSpace(hex, sym);
    assert s[..|hex|] == hex && s[|hex|..] == " " + sym;
    forall blanks | AllBlank(blanks)
      ensures ParseTarget(blanks + s) == loc <==> PlainLocation(loc, dso)
    {
      AddressRead(blanks, hex, sym);
    }
  }

  /** The address behind the blanks, and what follows it. */
  lemma {:induction false} AddressRead(blanks: Text, hex: Text, sym: Text)
    requires AllBlank(blanks) && hex != [] && forall i :: 0 <= i < |hex| ==> IsLowerHex(hex[i])
    ensures HexDigits(SkipSpaces(blanks + (hex + (" " + sym)))) == (hex, " " + sym)
  {
    var s := hex + (" " + sym);
    assert s[0] == hex[0];
    SpanIs(blanks + s, IsBlank, |blanks|);
    HexThen(hex, " " + sym);
  }

  // ----- The kind field -----------------------------------------------------------------------

  /** Letters and inner blanks only. */
  predicate IsPlain(c: Byte) {
    c == ' ' || 'a' <= c <= 'z'
  }

  /** From `i` on a run of hex digits is followed by another letter. */
  predicate WordAt(s: Text, i: nat) {
    i + Hexes(s, i) < |s| && s[i + Hexes(s, i)] != ' '
  }

  function Hexes(s: Text, i: nat): nat {
    if i <= |s| then HexRun(s, i) else 0
  }

  /** Plain, and no word after a blank looks like an address. */
  predicate IsWords(s: Text) {
    (forall i :: 0 <= i < |s| ==> IsPlain(s[i])) &&
    forall i :: 1 <= i < |s| && s[i - 1] == ' ' && s[i] != ' ' ==> WordAt(s, i)
  }

  predicate IsKindField(s: Text) {
    IsWords(s) && (s != [] ==> s[0] != ' ' && s[|s| - 1] != ' ')
  }

  lemma {:induction false} WordAtIs(s: Text, i: nat, j: nat)
    requires i <= j < |s| && s[j] != ' ' && !IsLowerHex(s[j]) && forall k :: i <= k < j ==> IsLowerHex(s[k])
    ensures WordAt(s, i) && Hexes(s, i) == j - i
  {
    SpanIs(s[i..], IsLowerHex, j - i);
  }

  lemma {:induction false} OneWord(s: Text)
    requires s != [] && forall i :: 0 <= i < |s| ==> 'a' <= s[i] <= 'z'
    ensures IsKindField(s)
  {
  }

  /** A single word whose first letter after `j` hex ones is not hex. */
  lemma {:induction false} WordField(s: Text, j: nat)
    requires forall i :: 0 <= i < |s| ==> 'a' <= s[i] <= 'z'
    requires j < |s| && !IsLowerHex(s[j]) && forall k :: 0 <= k < j ==> IsLowerHex(s[k])
    ensures s != [] && IsKindField(s) && WordAt(s, 0)
  {
    OneWord(s);
    WordAtIs(s, 0, j);
  }

  lemma {:induction false} KindTextField(kind: BranchKind, conditional: bool)
    ensures KindText(kind, conditional) != [] && IsKindField(KindText(kind, conditional)) &&
            WordAt(KindText(kind, conditional), 0)
  {
    hide IsKindField, WordAt;
    match kind
    case Call => WordField("call", 2);
    case Async => WordField("async", 1);
    case TxAbort => TwoWords("tx", "abrt", 0, 2); assert "tx" + " " + "abrt" == "tx abrt";
    case HardwareInterrupt => TwoWords("hw", "int", 0, 0); assert "hw" + " " + "int" == "hw int";
    case _ => OtherKindText(kind, conditional);
  }

  lemma {:induction false} OtherKindText(kind: BranchKind, conditional: bool)
    requires !kind.Call? && !kind.Async? && !kind.TxAbort? && !kind.HardwareInterrupt?
    ensures KindText(kind, conditional) != [] && IsKindField(KindText(kind, conditional)) &&
            WordAt(KindText(kind, conditional), 0)
  {
    hide IsKindField, WordAt;
    match kind
    case Return => WordField("return", 0);
    case Jump => WordField(if conditional then "jcc" else "jmp", 0);
    case Syscall => WordField("syscall", 0);
    case Sysret => WordField("sysret", 0);
    case Interrupt => WordField("int", 0);
    case Iret => WordField("iret", 0);
  }

  lemma {:induction false} TwoWords(a: Text, b: Text, i: nat, j: nat)
    requires forall k :: 0 <= k < |a| ==> 'a' <= a[k] <= 'z'
    requires i < |a| && !IsLowerHex(a[i]) && forall k :: 0 <= k < i ==> IsLowerHex(a[k])
    requires forall k :: 0 <= k < |b| ==> 'a' <= b[k] <= 'z'
    requires j < |b| && !IsLowerHex(b[j]) && forall k :: 0 <= k < j ==> IsLowerHex(b[k])
    ensures IsKindField(a + " " + b) && WordAt(a + " " + b, 0)
  {
    WordField(a, i);
    WordField(b, j);
    KindJoin(a, b);
    WordStays(a, " " + b, 0);
    assert a + " " + b == a + (" " + b);
  }

  lemma {:induction false} WordStays(a: Text, b: Text, i: nat)
    ensures i < |a| && WordAt(a, i) ==> WordAt(a + b, i)
  {
    if i < |a| && WordAt(a, i) {
      var j := i + Hexes(a, i);
      assert forall k :: i <= k < j ==> a[i..][k - i] == a[k];
      assert a[i..][j - i] == a[j];
      WordAtIs(a + b, i, j);
    }
  }

  lemma {:induction false} WordMoves(a: Text, b: Text, i: nat)
    ensures i < |b| && WordAt(b, i) ==> WordAt(a + b, |a| + i)
  {
    if i < |b| && WordAt(b, i) {
      var j := i + Hexes(b, i);
      assert forall k :: i <= k < j ==> b[i..][k - i] == b[k];
      assert b[i..][j - i] == b[j];
      assert forall k :: i <= k < |b| ==> (a + b)[|a| + k] == b[k];
      forall k | |a| + i <= k < |a| + j ensures IsLowerHex((a + b)[k]) {
        assert (a + b)[k] == b[k - |a|];
      }
      WordAtIs(a + b, |a| + i, |a| + j);
    }
  }

  /** Two fields one blank apart. */
  lemma {:induction false} KindJoin(a: Text, b: Text)
    requires a != [] && IsWords(a) && a[0] != ' ' && IsKindField(b) && b != [] && WordAt(b, 0)
    ensures IsKindField(a + " " + b)
  {
    hide WordAt;
    var s, h := a + " " + b, a + " ";
    assert s == a + (" " + b) && s == h + b;
    assert s[|s| - 1] == b[|b| - 1];
    forall i | 1 <= i < |s| && s[i - 1] == ' ' && s[i] != ' ' ensures WordAt(s, i) {
      if i < |a| {
        WordStays(a, " " + b, i);
      } else if i >= |h| {
        assert s[i] == b[i - |h|];
        if i > |h| { assert s[i - 1] == b[i - 1 - |h|]; }
        WordMoves(h, b, i - |h|);
      }
    }
  }

  lemma {:induction false} BlankAfter(a: Text)
    requires IsWords(a)
    ensures IsWords(a + " ")
  {
    hide WordAt;
    var s := a + " ";
    forall i | 1 <= i < |s| && s[i - 1] == ' ' && s[i] != ' ' ensures WordAt(s, i) {
      WordStays(a, " ", i);
    }
  }

  lemma {:induction false} KindFieldOk(kind: Option<BranchKind>, traceState: TraceState, conditional: bool)
    ensures IsKindField(KindField(kind, traceState, conditional))
    ensures kind.Some? || traceState != Unchanged ==> KindField(kind, traceState, conditional) != []
  {
    hide IsKindField, WordAt, IsWords;
    Marks();
    if kind.Some? {
      KindTextField(kind.value, conditional);
      if traceState == Start {
        KindJoin("tr strt", KindText(kind.value, conditional));
      } else if traceState == End {
        KindJoin("tr end ", KindText(kind.value, conditional));
      }
    } else {
      assert IsKindField([]) by { EmptyField(); }
    }
  }

  lemma {:induction false} EmptyField()
    ensures IsKindField([])
  {
  }

  lemma {:induction false} Marks()
    ensures IsKindField("tr strt") && IsWords("tr strt") && IsKindField("tr end") && IsWords("tr end ")
  {
    hide WordAt;
    TwoWords("tr", "strt", 0, 0);
    TwoWords("tr", "end", 0, 1);
    assert "tr" + " " + "strt" == "tr strt" && "tr" + " " + "end" == "tr end";
    BlankAfter("tr end");
    assert "tr end" + " " == "tr end ";
  }

  lemma {:induction false} KindTextBack(kind: BranchKind, conditional: bool)
    ensures ParseBranchKind(KindText(kind, conditional)) == Some(kind)
    ensures var t := KindText(kind, conditional);
            !("tr strt" <= t) && !("tr end" <= t) && !(" " <= t) && ("jmp" <= t ==> t == "jmp")
  {
    hide ParseBranchKind;
    NoTraceMark(kind, conditional);
    KindTextParses(kind, conditional);
  }

  lemma {:induction false} KindTextParses(kind: BranchKind, conditional: bool)
    ensures ParseBranchKind(KindText(kind, conditional)) == Some(kind)
  {
  }

  lemma {:induction false} NoTraceMark(kind: BranchKind, conditional: bool)
    ensures var t := KindText(kind, conditional);
            !("tr strt" <= t) && !("tr end" <= t) && !(" " <= t) && ("jmp" <= t ==> t == "jmp")
  {
    var t := KindText(kind, conditional);
    var start: Text := "tr strt";
    var end: Text := "tr end";
    assert start[1] == 'r' && end[1] == 'r' && start[0] == 't' && end[0] == 't';
    assert |t| >= 3 && t[0] != ' ';
    assert t[1] != 'r' || t[0] != 't';
    assert "jmp" <= t ==> t[0] == 'j' && t[1] == 'm';
  }

  lemma {:induction false} KindFieldBack(kind: Option<BranchKind>, traceState: TraceState, conditional: bool)
    ensures ParseKindAndTrace(KindField(kind, traceState, conditional)) == (kind, traceState)
  {
    hide ParseKindAndTrace, KindField;
    match traceState
    case Unchanged => BareFieldBack(kind, conditional);
    case Start => StartFieldBack(kind, conditional);
    case End => EndFieldBack(kind, conditional);
  }

  lemma {:induction false} BareFieldBack(kind: Option<BranchKind>, conditional: bool)
    ensures ParseKindAndTrace(KindField(kind, Unchanged, conditional)) == (kind, Unchanged)
  {
    hide KindText, ParseBranchKind;
    NoKind();
    if kind.Some? {
      KindTextBack(kind.value, conditional);
    }
  }

  lemma {:induction false} StartFieldBack(kind: Option<BranchKind>, conditional: bool)
    ensures ParseKindAndTrace(KindField(kind, Start, conditional)) == (kind, Start)
  {
    hide KindText, ParseBranchKind;
    var raw := KindField(kind, Start, conditional);
    var start: Text := "tr strt";
    NoKind();
    if kind.Some? {
      KindTextBack(kind.value, conditional);
      assert raw[..7] == start && raw[7..] == " " + KindText(kind.value, conditional);
      StartBack(kind.value, conditional);
    } else {
      assert raw[7..] == [];
    }
  }

  /** At the start of a trace anything that begins with "jmp" is a jump. */
  lemma {:induction false} StartJump(rest: Text)
    ensures ParseKindAndTrace("tr strt jmp" + rest) == (Some(Jump), Start)
  {
    var raw := "tr strt jmp" + rest;
    var text: Text := "tr strt jmp";
    assert raw[..7] == text[..7] == "tr strt";
    assert raw[7..][..4] == text[7..] == " jmp";
    assert AfterStart(raw) == "jmp";
    var end: Text := "tr end";
    assert end[0] == 't';
  }

  lemma {:induction false} EndFieldBack(kind: Option<BranchKind>, conditional: bool)
    ensures ParseKindAndTrace(KindField(kind, End, conditional)) == (kind, End)
  {
    hide KindText, ParseBranchKind;
    var raw := KindField(kind, End, conditional);
    var start: Text := "tr strt";
    var end: Text := "tr end";
    assert !(start <= raw) by { assert raw[3] == 'e' && start[3] == 's'; }
    if kind.Some? {
      KindTextBack(kind.value, conditional);
      assert raw[..6] == end && raw[6..] == "  " + KindText(kind.value, conditional);
      assert ("  " + KindText(kind.value, conditional))[2..] == KindText(kind.value, conditional);
    } else {
      assert raw[6..] == [];
      NoKind();
    }
  }

  /** A trace that starts and ends at once is in the state it was in. */
  lemma {:induction false} StartAndEnd(kind: Option<BranchKind>, conditional: bool)
    ensures ParseKindAndTrace("tr strt " + KindField(kind, End, conditional)) == (kind, Unchanged)
  {
    hide KindText, ParseBranchKind;
    var field := KindField(kind, End, conditional);
    var raw := "tr strt " + field;
    var start: Text := "tr strt ";
    var jmp: Text := " jmp";
    EndFieldBack(kind, conditional);
    assert raw[..7] == start[..7] == "tr strt";
    assert raw[7..] == " " + field;
    assert (" " + field)[1] == 't' && jmp[1] == 'j';
    assert (" " + field)[1..] == field;
    assert AfterStart(raw) == field;
  }

  lemma {:induction false} NoKind()
    ensures ParseBranchKind([]) == None
  {
  }

  lemma {:induction false} StartBack(kind: BranchKind, conditional: bool)
    requires "tr strt" <= "tr strt" + " " + KindText(kind, conditional)
    ensures AfterStart("tr strt" + " " + KindText(kind, conditional)) == KindText(kind, conditional)
  {
    KindTextBack(kind, conditional);
    var t := KindText(kind, conditional);
    var rest := ("tr strt" + " " + t)[7..];
    assert rest == " " + t;
    assert rest[1..] == t;
    var jmp: Text := "jmp";
    var sjmp: Text := " jmp";
    if sjmp <= rest {
      assert sjmp[1..] == jmp;
      assert rest[..4] == sjmp;
      assert rest[..4][1..] == t[..3];
      assert jmp <= t;
    }
  }

  // ----- The source half ----------------------------------------------------------------------

  /** A prefix as printed: a kind field, perhaps a flag, at least one blank, no address in it. */
  predicate IsPrefix(s: Text) {
    && s != [] && s[|s| - 1] == ' '
    && (forall i :: 0 <= i < |s| ==> IsPlain(s[i]) || s[i] == '(' || s[i] == ')')
    && forall i :: 1 <= i < |s| && s[i - 1] == ' ' && IsLowerHex(s[i]) ==> WordAt(s, i)
  }

  lemma {:induction false} PrefixOk(br: BranchData, l: Layout)
    requires l.srcBlanks > 0
    ensures IsPrefix(Prefix(br, l))
  {
    hide WordAt;
    var kind := KindField(br.kind, br.traceState, l.conditional);
    var flag := FlagField(kind, br.inTransaction);
    var s := Prefix(br, l);
    KindFieldOk(br.kind, br.traceState, l.conditional);
    var tail := flag + Spaces(l.srcBlanks);
    assert s == kind + tail;
    assert s[|s| - 1] == Spaces(l.srcBlanks)[l.srcBlanks - 1];
    assert forall i :: 0 <= i < |tail| ==> tail[i] == if i < |flag| then flag[i] else ' ';
    forall i | 1 <= i < |s| && s[i - 1] == ' ' && IsLowerHex(s[i]) ensures WordAt(s, i) {
      if i < |kind| {
        WordStays(kind, tail, i);
      }
    }
  }

  /** Without the flag no parenthesis is printed before the source symbol; with it "(x)" is there. */
  lemma {:induction false} PrefixFlag(br: BranchData, l: Layout)
    ensures var s := Prefix(br, l);
            if br.inTransaction then exists i: nat :: OccursAt(s, "(x)", i)
            else forall i :: 0 <= i < |s| ==> s[i] != '('
  {
    var kind := KindField(br.kind, br.traceState, l.conditional);
    var flag := FlagField(kind, br.inTransaction);
    var s := Prefix(br, l);
    KindFieldOk(br.kind, br.traceState, l.conditional);
    if br.inTransaction {
      var at := |kind| + |flag| - 3;
      assert s[at..at + 3] == "(x)";
      assert OccursAt(s, "(x)", at);
    }
  }

  /** Trimming a prefix leaves the kind field. */
  lemma {:induction false} PrefixTrims(br: BranchData, l: Layout)
    ensures TrimKind(Prefix(br, l)) == KindField(br.kind, br.traceState, l.conditional)
  {
    var kind := KindField(br.kind, br.traceState, l.conditional);
    var flag := FlagField(kind, br.inTransaction);
    KindFieldOk(br.kind, br.traceState, l.conditional);
    TrimBlanks(kind + flag, l.srcBlanks);
    if br.inTransaction {
      var t := kind + flag;
      assert t[|t| - 3..] == "(x)";
      var gap: nat := if kind == [] then 0 else 1;
      assert t[..|t| - 3] == kind + Spaces(gap);
      TrimBlanks(kind, gap);
    } else {
      assert kind + flag == kind;
      assert kind != [] ==> kind[|kind| - 1] != ')';
      assert |kind| >= 3 ==> kind[|kind| - 3..][2] == kind[|kind| - 1];
    }
  }

  lemma {:induction false} TrimBlanks(s: Text, n: nat)
    requires s != [] ==> s[|s| - 1] != ' '
    ensures TrimRight(s + Spaces(n)) == s
    decreases n
  {
    if n == 0 {
      assert s + Spaces(0) == s;
    } else {
      assert (s + Spaces(n))[..|s| + n - 1] == s + Spaces(n - 1);
      TrimBlanks(s, n - 1);
    }
  }

  /** The first address in the source half is the source's. */
  lemma {:induction false} AddressFound(prefix: Text, hex: Text, rest: Text)
    requires IsPrefix(prefix) && hex != [] && forall i :: 0 <= i < |hex| ==> IsLowerHex(hex[i])
    ensures AddressStart(prefix + (hex + (" " + rest)), 1) == Some(|prefix|)
  {
    var s := prefix + (hex + (" " + rest));
    var n := |prefix|;
    assert s[n - 1] == ' ' && s[n + |hex|] == ' ';
    assert forall i :: n <= i < n + |hex| ==> s[i] == hex[i - n];
    SpanIs(s[n..], IsLowerHex, |hex|);
    forall i | 1 <= i < n ensures !AddressAt(s, i) {
      assert s[i] == prefix[i] && s[i - 1] == prefix[i - 1];
      if s[i - 1] == ' ' && IsLowerHex(s[i]) {
        WordStays(prefix, hex + (" " + rest), i);
      } else {
        NoRun(s, i);
      }
    }
    FirstAddress(s, 1, n);
  }

  lemma {:induction false} NoRun(s: Text, i: nat)
    requires 1 <= i < |s| && !(s[i - 1] == ' ' && IsLowerHex(s[i]))
    ensures !AddressAt(s, i)
  {
    assert s[i..][0] == s[i];
  }

  lemma {:induction false} FirstAddress(s: Text, i: nat, n: nat)
    requires i <= n < |s| && AddressAt(s, n) && forall k :: i <= k < n ==> !AddressAt(s, k)
    ensures AddressStart(s, i) == Some(n)
    decreases n - i
  {
    hide AddressAt;
    if i < n {
      FirstAddress(s, i + 1, n);
    }
  }

  // ----- The whole body -------------------------------------------------------------------------

  function Before(br: BranchData, l: Layout): Text {
    Prefix(br, l) + LocationField(br.src, l.srcDso)
  }

  /** The arrow after a text that ends in a parenthesis is found first, if the text has none itself. */
  lemma {:induction false} ArrowAfter(head: Text, text: Text, after: Text)
    requires forall i :: 0 <= i < |head| ==> head[i] != '='
    requires text != [] && text[0] == ' ' && text[|text| - 1] == ')' && !Contains(text, " => ")
    ensures Find(head + text + (" => " + after), " => ") == Some(|head| + |text|)
  {
    hide FindFrom;
    var arrow: Text := " => ";
    var s := head + text + (arrow + after);
    var q, n := |head|, |head| + |text|;
    assert s[n..n + 4] == arrow;
    forall j | 0 <= j < n ensures !OccursAt(s, arrow, j) {
      if j < q {
        NoArrowInHead(head, text + (arrow + after), j);
        assert s == head + (text + (arrow + after));
      } else {
        NoArrowInText(s, q, text, j);
      }
    }
    FindIs(s, arrow, n);
  }

  lemma {:induction false} NoArrowInText(s: Text, q: nat, text: Text, j: nat)
    requires q <= j < q + |text| <= |s| && s[q..q + |text|] == text
    requires text[|text| - 1] == ')' && !Contains(text, " => ")
    ensures !OccursAt(s, " => ", j)
  {
    hide FindFrom;
    assert s[q + |text| - 1] == text[|text| - 1];
    NotLast(s, j, q + |text|);
    OccursWithin(s, q, q + |text|, " => ", j);
  }

  /** An arrow does not run over a parenthesis. */
  lemma {:induction false} NotLast(s: Text, j: nat, n: nat)
    requires j < n <= |s| && s[n - 1] == ')'
    ensures OccursAt(s, " => ", j) ==> s[j + 1] == '=' && j + 4 <= n
  {
    var arrow: Text := " => ";
    OccursChars(s, arrow, j);
    assert forall k :: 0 <= k < 4 ==> arrow[k] != ')';
    if n - 1 - j < 4 {
      OccursChar(s, arrow, j, n - 1 - j);
    }
  }

  /** The arrow found is the one printed. */
  lemma {:induction false} ArrowFound(br: BranchData, l: Layout)
    requires Framed(br, l) && NoEarlyArrow(br, l)
    ensures Find(Body(br, l), " => ") == Some(|Before(br, l)|)
  {
    hide Hex, SymbolField, FindFrom, Prefix;
    var prefix, hex := Prefix(br, l), Hex(br.src.ip);
    var text := " " + SymbolField(br.src, l.srcDso);
    PrefixOk(br, l);
    HexBack(br.src.ip);
    LastOfSymbol(br.src, l.srcDso);
    ArrowAfter(prefix + hex, text, Spaces(l.dstBlanks) + LocationField(br.dst, l.dstDso));
    assert Before(br, l) == prefix + hex + text;
  }

  lemma {:induction false} LastOfSymbol(loc: Location, dso: Object)
    ensures var s := SymbolField(loc, dso); s != [] && s[|s| - 1] == ')'
  {
  }

  lemma {:induction false} OccursLeft(a: Text, b: Text, p: Text, i: nat)
    requires OccursAt(a, p, i)
    ensures Contains(a + b, p)
  {
    hide FindFrom;
    assert (a + b)[i..i + |p|] == a[i..i + |p|];
    assert OccursAt(a + b, p, i);
  }

  lemma {:induction false} ContainsRight(a: Text, b: Text, p: Text)
    requires Contains(b, p)
    ensures Contains(a + b, p)
  {
    hide FindFrom;
    var i := Find(b, p).value;
    assert (a + b)[|a| + i..|a| + i + |p|] == b[i..i + |p|];
    assert OccursAt(a + b, p, |a| + i);
  }

  lemma {:induction false} FlagNotIn(head: Text, text: Text)
    requires (forall i :: 0 <= i < |head| ==> head[i] != '(') && !Contains(text, "(x)")
    ensures !Contains(head + text, "(x)")
  {
    var flag: Text := "(x)";
    var s := head + text;
    assert s[|head|..|s|] == text;
    forall j | 0 <= j <= |s| ensures !OccursAt(s, flag, j) {
      OccursChars(s, flag, j);
      OccursWithin(s, |head|, |s|, flag, j);
      if j < |head| {
        OccursChar(s, flag, j, 0);
      }
    }
  }

  /** "(x)" stands before the arrow exactly if the flag was printed or the source text holds it. */
  lemma {:induction false} FlagFound(br: BranchData, l: Layout)
    requires Framed(br, l)
    ensures Contains(Before(br, l), "(x)") == br.inTransaction <==>
            br.inTransaction || !Contains(SymbolField(br.src, l.srcDso), "(x)")
  {
    hide Hex, SymbolField, FindFrom, Prefix, Contains, OccursAt;
    var prefix := Prefix(br, l);
    PrefixFlag(br, l);
    HexBack(br.src.ip);
    if br.inTransaction {
      var i: nat :| OccursAt(prefix, "(x)", i);
      OccursLeft(prefix, LocationField(br.src, l.srcDso), "(x)", i);
    } else {
      var head, text := prefix + Hex(br.src.ip) + " ", SymbolField(br.src, l.srcDso);
      assert Before(br, l) == head + text;
      if Contains(text, "(x)") {
        ContainsRight(head, text, "(x)");
      } else {
        FlagNotIn(head, text);
      }
    }
  }

  /** An arrow within the source text is found before the one printed. */
  lemma {:induction false} ArrowEarly(head: Text, text: Text, after: Text)
    requires forall i :: 0 <= i < |head| ==> head[i] != '='
    requires text != [] && text[0] == ' ' && text[|text| - 1] == ')' && Contains(text, " => ")
    ensures var i := Find(text, " => ").value;
            i + 4 < |text| && Find(head + text + (" => " + after), " => ") == Some(|head| + i)
  {
    hide FindFrom;
    var arrow: Text := " => ";
    var s := head + text + (arrow + after);
    var q, i := |head|, Find(text, arrow).value;
    NotLast(text, i, |text|);
    LastIsNotArrow(text, i);
    assert s[q + i..q + i + 4] == text[i..i + 4];
    forall j | 0 <= j < q + i ensures !OccursAt(s, arrow, j) {
      if j < q {
        NoArrowInHead(head, text + (arrow + after), j);
        assert s == head + (text + (arrow + after));
      } else {
        assert !OccursAt(text, arrow, j - q);
        assert s[j..j + 4] == text[j - q..j - q + 4];
      }
    }
    FindIs(s, arrow, q + i);
  }

  lemma {:induction false} LastIsNotArrow(text: Text, i: nat)
    requires text != [] && text[|text| - 1] == ')' && OccursAt(text, " => ", i)
    ensures i + 4 < |text|
  {
    OccursChars(text, " => ", i);
    assert text[i + 3] == ' ';
  }

  lemma {:induction false} NoArrowInHead(head: Text, rest: Text, j: nat)
    requires j < |head| && forall i :: 0 <= i < |head| ==> head[i] != '='
    requires rest != [] && rest[0] == ' '
    ensures !OccursAt(head + rest, " => ", j)
  {
    OccursChars(head + rest, " => ", j);
    assert (head + rest)[|head|] == ' ';
    assert j + 1 < |head| ==> (head + rest)[j + 1] == head[j + 1];
  }

  /** What follows an early arrow holds too much to be the target's symbol. */
  lemma {:induction false} TargetTooLong(u: Text, loc: Location, dso: Object, n: nat)
    requires dso.Resolved? && u != [] && u[|u| - 1] == ')'
    ensures |ParseTarget(u + (" => " + (Spaces(n) + LocationField(loc, dso)))).symbol| > |loc.symbol|
  {
    hide ParseHex64, FindFrom, Hex, LocationField, HexDigits, SkipSpaces;
    var w := " => " + (Spaces(n) + LocationField(loc, dso));
    var left := DropsLess(u, w);
    MarkWithin(loc, dso, n);
    var m := 4 + n + |Hex(loc.ip)| + 1 + |loc.symbol|;
    assert (left + w)[|left| + m..|left| + m + 3] == w[m..m + 3];
    assert OccursAt(left + w, "+0x", |left| + m);
  }

  /** A leading run that cannot pass a parenthesis leaves it. */
  lemma {:induction false} RunLeaves(u: Text, w: Text, p: Byte -> bool) returns (left: Text)
    requires u != [] && u[|u| - 1] == ')' && !p(')')
    ensures left != [] && left[|left| - 1] == ')' && (u + w)[Span(u + w, p)..] == left + w
  {
    hide Span;
    assert (u + w)[|u| - 1] == ')';
    left := u[Span(u + w, p)..];
  }

  /** Dropping blanks, digits and blanks leaves the parenthesis and all that follows it. */
  lemma {:induction false} DropsLess(u: Text, w: Text) returns (left: Text)
    requires u != [] && u[|u| - 1] == ')'
    ensures left != [] && SkipSpaces(HexDigits(SkipSpaces(u + w)).1) == left + w
  {
    hide Span;
    var a := RunLeaves(u, w, IsBlank);
    var b := RunLeaves(a, w, IsHex);
    left := RunLeaves(b, w, IsBlank);
  }

  lemma {:induction false} Middle(a: Text, b: Text, c: Text)
    ensures (a + (b + c))[|a|..|a| + |b|] == b
  {
  }

  lemma {:induction false} MarkWithin(loc: Location, dso: Object, n: nat)
    requires dso.Resolved?
    ensures var w := " => " + (Spaces(n) + LocationField(loc, dso));
            var m := 4 + n + |Hex(loc.ip)| + 1 + |loc.symbol|;
            m + 3 <= |w| && w[m..m + 3] == "+0x"
  {
    hide Hex;
    var w := " => " + (Spaces(n) + LocationField(loc, dso));
    var m := 4 + n + |Hex(loc.ip)| + 1 + |loc.symbol|;
    var head := " => " + Spaces(n) + Hex(loc.ip) + " " + loc.symbol;
    assert w == head + ("+0x" + (Hex(loc.symbolOffset % TWO_32) + (" (" + (dso.name + ")"))));
    Middle(head, "+0x", Hex(loc.symbolOffset % TWO_32) + (" (" + (dso.name + ")")));
  }

  lemma {:induction false} BodyParts(br: BranchData, l: Layout)
    ensures Body(br, l) ==
            Prefix(br, l) + Hex(br.src.ip) + (" " + SymbolField(br.src, l.srcDso)) +
            (" => " + (Spaces(l.dstBlanks) + LocationField(br.dst, l.dstDso)))
  {
    hide Hex, SymbolField, Prefix, Spaces;
    SourceShape(br.src, l.srcDso);
    var prefix, hex, text := Prefix(br, l), Hex(br.src.ip), " " + SymbolField(br.src, l.srcDso);
    assert prefix + (hex + text) == prefix + hex + text;
  }

  /** Where an arrow within the source text is found, and what is left of that text behind it. */
  lemma {:induction false} EarlyArrow(br: BranchData, l: Layout) returns (arrow: nat, left: Text)
    requires Framed(br, l) && !NoEarlyArrow(br, l)
    ensures Find(Body(br, l), " => ") == Some(arrow) && left != [] && left[|left| - 1] == ')'
    ensures Body(br, l)[arrow + 4..] == left + (" => " + (Spaces(l.dstBlanks) + LocationField(br.dst, l.dstDso)))
  {
    hide Hex, SymbolField, FindFrom, Prefix, Body, LocationField, Spaces;
    var head, text := Prefix(br, l) + Hex(br.src.ip), " " + SymbolField(br.src, l.srcDso);
    PrefixOk(br, l);
    HexBack(br.src.ip);
    LastOfSymbol(br.src, l.srcDso);
    BodyParts(br, l);
    ArrowEarly(head, text, Spaces(l.dstBlanks) + LocationField(br.dst, l.dstDso));
    var i := Find(text, " => ").value;
    arrow, left := |head| + i, text[i + 4..];
  }

  /** An arrow within the source text makes the target symbol read longer than the one printed. */
  lemma {:induction false} EarlyArrowSpoils(br: BranchData, l: Layout)
    requires Framed(br, l) && !NoEarlyArrow(br, l)
    ensures ParseBranch("   " + Body(br, l)) != Some(br)
  {
    hide Body, NoEarlyArrow, FindFrom, ParseKindAndTrace, ParseSource, ParseTarget, TrimKind, AddressStart;
    var arrow, left := EarlyArrow(br, l);
    BodyStart(br, l);
    assert "   " + Body(br, l) == Spaces(3) + Body(br, l);
    BlanksThen(3, Body(br, l));
    TargetTooLong(left, br.dst, l.dstDso, l.dstBlanks);
  }

  /** The body as printed, blanks before it included, reads back as the branch exactly if it is plain. */
  lemma {:induction false} BodyBack(br: BranchData, l: Layout)
    requires Framed(br, l)
    ensures ParseBranch("   " + Body(br, l)) == Some(br) <==> PlainParts(br, l)
  {
    hide ParseBranch, Body, PlainLocation, NoEarlyArrow;
    if NoEarlyArrow(br, l) {
      PartsBack(br, l);
    } else {
      EarlyArrowSpoils(br, l);
    }
  }

  lemma {:induction false} PartsBack(br: BranchData, l: Layout)
    requires Framed(br, l) && NoEarlyArrow(br, l)
    ensures ParseBranch("   " + Body(br, l)) == Some(br) <==> PlainParts(br, l)
  {
    hide Hex, SymbolField, FindFrom, AddressAt, ParseKindAndTrace, TrimKind, ParseSource, ParseTarget, KindField,
      FlagField, LocationField, PlainLocation, NoEarlyArrow;
    var body, before := Body(br, l), Before(br, l);
    var prefix := Prefix(br, l);
    var source := LocationField(br.src, l.srcDso);
    var after := Spaces(l.dstBlanks) + LocationField(br.dst, l.dstDso);
    BodyStart(br, l);
    assert "   " + body == Spaces(3) + body;
    BlanksThen(3, body);
    ArrowFound(br, l);
    assert body == before + (" => " + after);
    assert body[..|before|] == before && body[|before| + 4..] == after;
    PrefixOk(br, l);
    HexBack(br.src.ip);
    SourceShape(br.src, l.srcDso);
    AddressFound(prefix, Hex(br.src.ip), SymbolField(br.src, l.srcDso));
    assert before[..|prefix|] == prefix && before[|prefix|..] == source;
    PrefixTrims(br, l);
    KindFieldBack(br.kind, br.traceState, l.conditional);
    FlagFound(br, l);
    LocationBack(br.src, l.srcDso);
    LocationBack(br.dst, l.dstDso);
  }

  lemma {:induction false} SourceShape(loc: Location, dso: Object)
    ensures LocationField(loc, dso) == Hex(loc.ip) + (" " + SymbolField(loc, dso))
  {
  }

  lemma {:induction false} BodyStart(br: BranchData, l: Layout)
    requires Framed(br, l)
    ensures Body(br, l) != [] && NoBlankFirst(Body(br, l))
  {
    var kind := KindField(br.kind, br.traceState, l.conditional);
    KindFieldOk(br.kind, br.traceState, l.conditional);
    var first := kind + FlagField(kind, br.inTransaction);
    assert first != [] && !IsBlank(first[0]);
    assert Body(br, l)[0] == first[0];
  }

  // ----- Main result ------------------------------------------------------------------------

  /** Printing a branch event and parsing the line gives the event back if and only if its parts are
      plain, whenever something stands before the source address. */
  lemma {:induction false} BranchRoundTrip(h: HeaderLayout, pid: Word32, tid: Word32, timeNs: Word64, br: BranchData,
      l: Layout)
    requires IsHeaderLayout(h) && Framed(br, l)
    ensures ParseGroup([Print(h, pid, tid, timeNs, br, l)]) == Some(Ok(pid, tid, timeNs, Branch(br))) <==>
            PlainParts(br, l)
  {
    hide ParseHeader, ParseBranch, ParseDecodeError, HeaderText, Body, PlainParts, Framed, IsHeaderLayout;
    var body := "   " + Body(br, l);
    HeaderBack(h, pid, tid, timeNs, "branches", body);
    BodyBack(br, l);
  }
}
