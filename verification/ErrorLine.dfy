/** Printing a decode error the way perf does, and reading it back. */
module ErrorLine {
  import opened Texts
  import opened PerfEvent
  import opened TextSearch
  import opened PerfScriptParser
  import opened HeaderLine
  import opened BranchLine

  // ----- Printing ---------------------------------------------------------------------------

  function Signed(n: int): Text {
    if n < 0 then "-" + Decimal(-n) else Decimal(n)
  }

  /** perf prints ids as signed 32-bit numbers. */
  function IdText(id: Word32): Text {
    Signed(if id < 0x8000_0000 then id else id - 0x1_0000_0000)
  }

  function IpText(ip: Option<Word64>): Text {
    match ip
    case None => "0"
    case Some(n) => "0x" + Hex(n)
  }

  datatype ErrorLayout = ErrorLayout(indent: nat, kind: nat, cpu: int, code: nat)

  function TimePart(time: Option<Word64>): seq<Text> {
    match time
    case None => []
    case Some(t) => ["time ", Decimal(t / 1_000_000_000) + ("." + (Padded(t % 1_000_000_000, 9) + " "))]
  }

  /** The parts of the line up to the message, a blank at the end of each. */
  function Parts(l: ErrorLayout, pid: Word32, tid: Word32, time: Option<Word64>, ip: Option<Word64>): seq<Text> {
    ["instruction trace error type ", Decimal(l.kind) + " "] + TimePart(time) +
    ["cpu ", Signed(l.cpu) + " ", "pid ", IdText(pid) + " ", "tid ", IdText(tid) + " ", "ip ", IpText(ip) + " ",
     "code ", Decimal(l.code) + ": "]
  }

  function Glued(parts: seq<Text>, message: Text): Text {
    if parts == [] then message else parts[0] + Glued(parts[1..], message)
  }

  function ErrorText(l: ErrorLayout, pid: Word32, tid: Word32, time: Option<Word64>, ip: Option<Word64>,
      message: Text): Text {
    Spaces(l.indent) + Glued(Parts(l, pid, tid, time, ip), message)
  }

  /** The first "time " in the text is followed by digits and a point. */
  predicate MentionsTime(s: Text) {
    match Find(s, "time ")
    case None => false
    case Some(i) =>
      var n := Span(s[i + 5..], IsDigit);
      i + 5 + n < |s| && s[i + 5 + n] == '.'
  }

  // ----- Finding a field ----------------------------------------------------------------------

  /** A field's name: at least three characters, the last one and no other a blank. */
  predicate IsFieldName(p: Text) {
    |p| >= 3 && p[|p| - 1] == ' ' && forall i :: 0 <= i < |p| - 1 ==> p[i] != ' '
  }

  /** The first three characters of the name do not stand in the text. */
  predicate Free(s: Text, p: Text)
    requires IsFieldName(p)
  {
    forall i :: 0 <= i < |s| - 2 ==> !(s[i] == p[0] && s[i + 1] == p[1] && s[i + 2] == p[2])
  }

  /** The text behind the first occurrence of the name. */
  function Behind(s: Text, p: Text): Option<Text> {
    match Find(s, p)
    case None => None
    case Some(i) => Some(s[i + |p|..])
  }

  predicate IsPart(a: Text) {
    a != [] && a[|a| - 1] == ' '
  }

  lemma {:induction false} NotAcross(a: Text, b: Text, p: Text, j: nat)
    requires IsPart(a) && IsFieldName(p) && Free(a, p) && j < |a|
    ensures !OccursAt(a + b, p, j)
  {
    var s := a + b;
    if j + |p| <= |s| {
      OccursChar(s, p, j, 0);
      OccursChar(s, p, j, 1);
      OccursChar(s, p, j, 2);
      if j + 2 >= |a| {
        OccursChar(s, p, j, |a| - 1 - j);
      }
      assert forall k :: 0 <= k < |a| ==> s[k] == a[k];
    }
  }

  /** A part in which the name does not stand is passed. */
  lemma {:induction false} PartPassed(a: Text, b: Text, p: Text)
    requires IsPart(a) && IsFieldName(p) && Free(a, p)
    ensures Find(a + b, p) == match Find(b, p) case None => None case Some(i) => Some(|a| + i)
    ensures Behind(a + b, p) == Behind(b, p)
  {
    hide FindFrom, IsPart, IsFieldName, Free;
    forall j | 0 <= j < |a| ensures !OccursAt(a + b, p, j) {
      NotAcross(a, b, p, j);
    }
    forall j | |a| <= j ensures OccursAt(a + b, p, j) <==> OccursAt(b, p, j - |a|) {
      if j + |p| <= |a + b| {
        assert (a + b)[j..j + |p|] == b[j - |a|..j - |a| + |p|];
      }
    }
    match Find(b, p)
    case Some(i) =>
      assert OccursAt(a + b, p, |a| + i);
      FindIs(a + b, p, |a| + i);
      assert (a + b)[|a| + i + |p|..] == b[i + |p|..];
    case None =>
  }

  lemma {:induction false} PartFound(p: Text, b: Text)
    ensures Find(p + b, p) == Some(0) && Behind(p + b, p) == Some(b)
  {
    assert (p + b)[0..|p|] == p;
  }

  /** Behind a name is what follows the first part that is the name. */
  lemma {:induction false} FieldBehind(parts: seq<Text>, message: Text, p: Text, k: nat)
    requires IsFieldName(p) && k <= |parts| && forall i :: 0 <= i < k ==> IsPart(parts[i]) && Free(parts[i], p)
    ensures k < |parts| && parts[k] == p ==>
              Behind(Glued(parts, message), p) == Some(Glued(parts[k + 1..], message))
    ensures k == |parts| ==> Behind(Glued(parts, message), p) == Behind(message, p)
    decreases k
  {
    hide IsPart, Free, IsFieldName, Behind;
    if k == 0 {
      if parts != [] {
        PartFound(parts[0], Glued(parts[1..], message));
      }
    } else {
      PartPassed(parts[0], Glued(parts[1..], message), p);
      FieldBehind(parts[1..], message, p, k - 1);
      assert k < |parts| ==> parts[1..][k - 1] == parts[k] && parts[1..][k..] == parts[k + 1..];
    }
  }

  // ----- The fields of the line ---------------------------------------------------------------

  const FIELDS: seq<Text> := ["time ", "pid ", "tid ", "ip ", "code "]

  /** None of these letters stands in the text; every field's name begins with one or has one second. */
  predicate IsNumeric(s: Text) {
    forall i :: 0 <= i < |s| ==> s[i] !in ['t', 'i', 'm', 'p', 'o']
  }

  lemma {:induction false} FieldNames(f: nat)
    requires f < 5
    ensures IsFieldName(FIELDS[f])
  {
    var p := FIELDS[f];
    assert p == "time " || p == "pid " || p == "tid " || p == "ip " || p == "code ";
  }

  lemma {:induction false} NumericFree(s: Text, f: nat)
    requires f < 5 && IsNumeric(s)
    ensures IsFieldName(FIELDS[f]) && Free(s, FIELDS[f])
  {
    FieldNames(f);
    var p := FIELDS[f];
    assert p == "time " || p == "pid " || p == "tid " || p == "ip " || p == "code ";
    assert p[0] in ['t', 'p', 'i'] || p[1] == 'o';
  }

  lemma {:induction false} FirstFree(f: nat)
    requires f < 5
    ensures IsFieldName(FIELDS[f]) && Free("instruction trace error type ", FIELDS[f])
  {
    FieldNames(f);
    var p := FIELDS[f];
    assert p == "time " || p == "pid " || p == "tid " || p == "ip " || p == "code ";
    var s: Text := "instruction trace error type ";
    forall i | 0 <= i < |s| - 2 ensures !(s[i] == p[0] && s[i + 1] == p[1] && s[i + 2] == p[2]) {
      assert s[i] == 't' && s[i + 1] == 'i' ==> i == 7;
      assert !(s[i] == 'p' && s[i + 1] == 'i') && !(s[i] == 'i' && s[i + 1] == 'p');
      assert !(s[i] == 'c' && s[i + 1] == 'o');
    }
  }

  lemma {:induction false} WordFree(w: Text, f: nat)
    requires f < 5 && w in ["time ", "cpu ", "pid ", "tid ", "ip ", "code "] && w != FIELDS[f]
    ensures IsPart(w) && IsFieldName(FIELDS[f]) && Free(w, FIELDS[f])
  {
    FieldNames(f);
    var p := FIELDS[f];
    assert p == "time " || p == "pid " || p == "tid " || p == "ip " || p == "code ";
  }

  lemma {:induction false} DigitsNumeric(n: nat, k: nat)
    requires k < Pow10(9)
    ensures IsNumeric(Decimal(n)) && IsNumeric(Hex(n)) && IsNumeric(Padded(k, 9))
  {
    hide Decimal, Hex, Padded, ValueOf, Pow10;
    DecimalValue(n);
    HexValue(n);
    PaddedValue(k, 9);
  }

  lemma {:induction false} NumericJoined(a: Text, b: Text)
    requires IsNumeric(a) && IsNumeric(b)
    ensures IsNumeric(a + b) && (b != [] && b[|b| - 1] == ' ' ==> IsPart(a + b))
  {
  }

  lemma {:induction false} SignedNumeric(n: int)
    ensures IsNumeric(Signed(n) + " ") && IsPart(Signed(n) + " ")
  {
    hide IsNumeric, IsPart, Decimal, Pow10;
    Billion();
    Marks();
    DigitsNumeric(if n < 0 then -n else n, 0);
    NumericJoined("-", Decimal(if n < 0 then -n else n));
    NumericJoined(Signed(n), " ");
  }

  lemma {:induction false} Marks()
    ensures IsNumeric(" ") && IsNumeric(": ") && IsNumeric(".") && IsNumeric("0x") && IsNumeric("0") && IsNumeric("-")
  {
  }

  lemma {:induction false} NumbersNumeric(l: ErrorLayout, time: Word64, ip: Option<Word64>)
    ensures IsNumeric(Decimal(l.kind) + " ") && IsPart(Decimal(l.kind) + " ")
    ensures IsNumeric(Decimal(l.code) + ": ") && IsPart(Decimal(l.code) + ": ")
    ensures IsNumeric(IpText(ip) + " ") && IsPart(IpText(ip) + " ")
    ensures IsNumeric(TimePart(Some(time))[1]) && IsPart(TimePart(Some(time))[1])
  {
    hide IsNumeric, IsPart, Decimal, Hex, Padded, Pow10;
    Billion();
    Marks();
    DigitsNumeric(l.kind, 0);
    NumericJoined(Decimal(l.kind), " ");
    DigitsNumeric(l.code, 0);
    NumericJoined(Decimal(l.code), ": ");
    DigitsNumeric(time / 1_000_000_000, time % 1_000_000_000);
    var fraction := Padded(time % 1_000_000_000, 9);
    NumericJoined(fraction, " ");
    NumericJoined(".", fraction + " ");
    assert ("." + (fraction + " "))[10] == ' ';
    NumericJoined(Decimal(time / 1_000_000_000), "." + (fraction + " "));
    if ip.Some? {
      DigitsNumeric(ip.value, 0);
      NumericJoined("0x", Hex(ip.value));
    }
    NumericJoined(IpText(ip), " ");
  }

  /** Which part is the name of the field. */
  function PlaceOf(f: nat, time: Option<Word64>): nat {
    if f == 0 then 2 else 2 + |TimePart(time)| + 2 * f
  }

  /** A part holds no name of a field but, perhaps, its own. */
  lemma {:induction false} PartFree(l: ErrorLayout, pid: Word32, tid: Word32, time: Option<Word64>,
      ip: Option<Word64>, i: nat, f: nat)
    requires f < 5 && i < |Parts(l, pid, tid, time, ip)| && (i != PlaceOf(f, time) || (f == 0 && time == None))
    ensures IsFieldName(FIELDS[f]) && IsPart(Parts(l, pid, tid, time, ip)[i]) &&
            Free(Parts(l, pid, tid, time, ip)[i], FIELDS[f])
  {
    hide Free, IsNumeric, IsPart, IsFieldName, Parts, PlaceOf;
    if i == 0 {
      FirstFree(f);
      FirstIs(l, pid, tid, time, ip);
    } else if i % 2 == 1 {
      OddPart(l, pid, tid, time, ip, i);
      NumericFree(Parts(l, pid, tid, time, ip)[i], f);
    } else {
      EvenPart(l, pid, tid, time, ip, i, f);
      WordFree(Parts(l, pid, tid, time, ip)[i], f);
    }
  }

  lemma {:induction false} FirstIs(l: ErrorLayout, pid: Word32, tid: Word32, time: Option<Word64>, ip: Option<Word64>)
    ensures var a := Parts(l, pid, tid, time, ip)[0]; a == "instruction trace error type " && IsPart(a)
  {
    hide IdText, IpText, Decimal, Signed, TimePart;
  }

  /** Every other part is a number. */
  lemma {:induction false} OddPart(l: ErrorLayout, pid: Word32, tid: Word32, time: Option<Word64>,
      ip: Option<Word64>, i: nat)
    requires i < |Parts(l, pid, tid, time, ip)| && i % 2 == 1
    ensures var a := Parts(l, pid, tid, time, ip)[i]; IsNumeric(a) && IsPart(a)
  {
    hide IsPart, IsNumeric, Decimal, Padded, Signed, IpText;
    NumbersNumeric(l, if time.Some? then time.value else 0, ip);
    SignedNumeric(l.cpu);
    SignedNumeric(if pid < 0x8000_0000 then pid else pid - 0x1_0000_0000);
    SignedNumeric(if tid < 0x8000_0000 then tid else tid - 0x1_0000_0000);
  }

  lemma {:induction false} EvenPart(l: ErrorLayout, pid: Word32, tid: Word32, time: Option<Word64>,
      ip: Option<Word64>, i: nat, f: nat)
    requires f < 5 && 0 < i < |Parts(l, pid, tid, time, ip)| && i % 2 == 0
    requires i != PlaceOf(f, time) || (f == 0 && time == None)
    ensures var a := Parts(l, pid, tid, time, ip)[i];
            a in ["time ", "cpu ", "pid ", "tid ", "ip ", "code "] && a != FIELDS[f]
  {
    hide IdText, IpText, Decimal, Signed, Padded;
  }

  /** What stands behind the name of a field: its value, and what follows that. */
  lemma {:induction false} FieldValue(l: ErrorLayout, pid: Word32, tid: Word32, time: Option<Word64>,
      ip: Option<Word64>, message: Text, f: nat)
    returns (rest: Text)
    requires f < 5 && (f == 0 ==> time.Some?)
    ensures var k, parts := PlaceOf(f, time), Parts(l, pid, tid, time, ip);
            k + 1 < |parts| && parts[k] == FIELDS[f] &&
            Behind(Glued(parts, message), FIELDS[f]) == Some(parts[k + 1] + rest) &&
            (f == 4 ==> rest == message)
  {
    hide IsPart, Free, Behind, IsFieldName, IsNumeric;
    var k, parts := PlaceOf(f, time), Parts(l, pid, tid, time, ip);
    FieldNames(f);
    assert k + 1 < |parts| && parts[k] == FIELDS[f] by { PlacedField(l, pid, tid, time, ip, f); }
    forall i | 0 <= i < k ensures IsPart(parts[i]) && Free(parts[i], FIELDS[f]) {
      PartFree(l, pid, tid, time, ip, i, f);
    }
    FieldBehind(parts, message, FIELDS[f], k);
    assert parts[k + 1..][0] == parts[k + 1] && parts[k + 1..][1..] == parts[k + 2..];
    rest := Glued(parts[k + 2..], message);
    if f == 4 {
      assert parts[k + 2..] == [];
    }
  }

  lemma {:induction false} PlacedField(l: ErrorLayout, pid: Word32, tid: Word32, time: Option<Word64>,
      ip: Option<Word64>, f: nat)
    requires f < 5 && (f == 0 ==> time.Some?)
    ensures var k, parts := PlaceOf(f, time), Parts(l, pid, tid, time, ip);
            k + 1 < |parts| && parts[k] == FIELDS[f] && (f == 4 ==> k + 2 == |parts|) &&
            parts[k + 1] == (match f
                             case 0 => TimePart(time)[1]
                             case 1 => IdText(pid) + " "
                             case 2 => IdText(tid) + " "
                             case 3 => IpText(ip) + " "
                             case _ => Decimal(l.code) + ": ")
  {
    hide IdText, IpText, Decimal, Signed, Padded;
  }

  lemma {:induction false} IdBack(id: Word32, rest: Text)
    ensures ParseInt32(IdText(id) + " " + rest) % TWO_32 == id
  {
    hide ParseInt32, Signed;
    SignedBack(if id < 0x8000_0000 then id else id - 0x1_0000_0000, rest);
  }

  /** Any number printed with its sign is read back, or as 0 if it does not fit 32 bits. */
  lemma {:induction false} SignedBack(n: int, rest: Text)
    ensures ParseInt32(Signed(n) + " " + rest) == if -0x8000_0000 <= n < 0x8000_0000 then n else 0
  {
    hide Decimal, ValueOf, Digits;
    var d := Decimal(if n < 0 then -n else n);
    DecimalValue(if n < 0 then -n else n);
    DigitsThen(d, " " + rest);
    var s := Signed(n) + " " + rest;
    if n < 0 {
      assert s == "-" + (d + (" " + rest));
      assert s[1..] == d + (" " + rest);
    } else {
      assert s == d + (" " + rest);
      assert s[0] == d[0] && IsDigit(d[0]);
    }
  }

  lemma {:induction false} IpBack(ip: Option<Word64>, rest: Text)
    ensures Find(IpText(ip) + " " + rest, " ") == Some(|IpText(ip)|)
    ensures (IpText(ip) + " " + rest)[..|IpText(ip)|] == IpText(ip)
    ensures (if IpText(ip) != "0" then Some(ParseHex64(IpText(ip))) else None) == ip
  {
    hide Hex, ParseHex64, FindFrom;
    var text := IpText(ip);
    assert text + " " + rest == text + (" " + rest);
    if ip.Some? {
      HexBack(ip.value);
      assert text[1] == 'x';
    }
    FirstSpace(text, rest);
  }

  lemma {:induction false} ErrorTimeBack(time: Word64, rest: Text)
    ensures var s := TimePart(Some(time))[1] + rest;
            Digits(s).0 == Decimal(time / 1_000_000_000) &&
            "." <= Digits(s).1 &&
            Digits(Digits(s).1[1..]).0 == Padded(time % 1_000_000_000, 9)
  {
    hide Decimal, Padded, ValueOf, Digits, Pow10;
    var hi, lo := Decimal(time / 1_000_000_000), Padded(time % 1_000_000_000, 9);
    DecimalValue(time / 1_000_000_000);
    Billion();
    PaddedValue(time % 1_000_000_000, 9);
    var t := "." + (lo + (" " + rest));
    assert hi + ("." + (lo + " ")) + rest == hi + t;
    DigitsThen(hi, t);
    assert t[1..] == lo + (" " + rest);
    DigitsThen(lo, " " + rest);
  }

  /** Without a time of its own the line shows the message's, if that mentions one. */
  lemma {:induction false} TimeRead(l: ErrorLayout, pid: Word32, tid: Word32, time: Option<Word64>,
      ip: Option<Word64>, message: Text)
    ensures TimeField(Glued(Parts(l, pid, tid, time, ip), message)) == time <==>
            time.Some? || !MentionsTime(message)
  {
    hide Glued, Parts, ParseTime, FindFrom, Free, IsPart, IsFieldName, TimePart;
    var parts := Parts(l, pid, tid, time, ip);
    var s := Glued(parts, message);
    if time.Some? {
      var rest := FieldValue(l, pid, tid, time, ip, message, 0);
      PlacedField(l, pid, tid, time, ip, 0);
      ErrorTimeBack(time.value, rest);
      TimeBack(time.value);
    } else {
      FieldNames(0);
      forall i | 0 <= i < |parts| ensures IsPart(parts[i]) && Free(parts[i], FIELDS[0]) {
        PartFree(l, pid, tid, time, ip, i, 0);
      }
      FieldBehind(parts, message, FIELDS[0], |parts|);
      assert Behind(s, "time ") == Behind(message, "time ");
    }
  }

  lemma {:induction false} IdsRead(l: ErrorLayout, pid: Word32, tid: Word32, time: Option<Word64>,
      ip: Option<Word64>, message: Text)
    ensures var s := Glued(Parts(l, pid, tid, time, ip), message);
            IdField(s, "pid ") == pid && IdField(s, "tid ") == tid
  {
    hide Glued, Parts, FindFrom, TimePart, IdText, IpText, ParseInt32;
    var a := FieldValue(l, pid, tid, time, ip, message, 1);
    PlacedField(l, pid, tid, time, ip, 1);
    IdBack(pid, a);
    var b := FieldValue(l, pid, tid, time, ip, message, 2);
    PlacedField(l, pid, tid, time, ip, 2);
    IdBack(tid, b);
  }

  lemma {:induction false} IpRead(l: ErrorLayout, pid: Word32, tid: Word32, time: Option<Word64>,
      ip: Option<Word64>, message: Text)
    ensures IpField(Glued(Parts(l, pid, tid, time, ip), message)) == ip
  {
    hide Glued, Parts, FindFrom, TimePart, IdText, IpText, ParseHex64;
    var rest := FieldValue(l, pid, tid, time, ip, message, 3);
    PlacedField(l, pid, tid, time, ip, 3);
    IpBack(ip, rest);
  }

  lemma {:induction false} MessageRead(l: ErrorLayout, pid: Word32, tid: Word32, time: Option<Word64>,
      ip: Option<Word64>, message: Text)
    ensures MessageField(Glued(Parts(l, pid, tid, time, ip), message)) == message
  {
    hide Glued, Parts, FindFrom, TimePart, Decimal, ValueOf;
    var s := Glued(Parts(l, pid, tid, time, ip), message);
    var rest := FieldValue(l, pid, tid, time, ip, message, 4);
    PlacedField(l, pid, tid, time, ip, 4);
    var p := Find(s, "code ").value;
    var head := "code " + Decimal(l.code);
    DecimalValue(l.code);
    CodeTail(s, p, Decimal(l.code), message);
    ColonFound(head, message);
  }

  lemma {:induction false} CodeTail(s: Text, p: nat, d: Text, message: Text)
    requires OccursAt(s, "code ", p) && s[p + 5..] == d + ": " + message
    ensures s[p..] == ("code " + d) + (": " + message) && s[p + |"code " + d| + 2..] == message
  {
    assert s[p..] == s[p..p + 5] + s[p + 5..];
    assert s[p + 5 + |d| + 2..] == s[p + 5..][|d| + 2..];
  }

  lemma {:induction false} ColonFound(head: Text, message: Text)
    requires forall i :: 0 <= i < |head| ==> head[i] != ':'
    ensures Find(head + (": " + message), ": ") == Some(|head|)
  {
    hide FindFrom;
    var s := head + (": " + message);
    assert s[|head|..|head| + 2] == ": ";
    forall j | 0 <= j < |head| ensures !OccursAt(s, ": ", j) {
      OccursChars(s, ": ", j);
      assert s[j] == head[j];
    }
    FindIs(s, ": ", |head|);
  }

  // ----- Main result ------------------------------------------------------------------------

  /** A printed decode error gives back ids, time, address and message, exactly if it was printed with a
      time or its message does not seem to mention one. */
  lemma {:induction false} ErrorRoundTrip(l: ErrorLayout, pid: Word32, tid: Word32, time: Option<Word64>,
      ip: Option<Word64>, message: Text, more: seq<Text>)
    ensures ParseGroup([ErrorText(l, pid, tid, time, ip, message)] + more) ==
            Some(DecodeError(pid, tid, time, ip, message)) <==>
            time.Some? || !MentionsTime(message)
  {
    hide TimeField, IdField, IpField, MessageField, MentionsTime, Parts, Glued, ParseHeader, ParseData;
    var line := ErrorText(l, pid, tid, time, ip, message);
    var s := Glued(Parts(l, pid, tid, time, ip), message);
    ErrorStarts(l, pid, tid, time, ip, message);
    BlanksThen(l.indent, s);
    TimeRead(l, pid, tid, time, ip, message);
    IdsRead(l, pid, tid, time, ip, message);
    IpRead(l, pid, tid, time, ip, message);
    MessageRead(l, pid, tid, time, ip, message);
    assert ([line] + more)[0] == line;
  }

  lemma {:induction false} ErrorStarts(l: ErrorLayout, pid: Word32, tid: Word32, time: Option<Word64>,
      ip: Option<Word64>, message: Text)
    ensures var s := Glued(Parts(l, pid, tid, time, ip), message);
            "instruction trace error" <= s && NoBlankFirst(s)
  {
    hide IdText, IpText, Decimal, Signed, TimePart;
    var parts := Parts(l, pid, tid, time, ip);
    var first: Text := "instruction trace error type ";
    assert parts[0] == first;
    var s := Glued(parts, message);
    assert s == first + Glued(parts[1..], message);
    assert s[..23] == first[..23] == "instruction trace error";
    assert s[0] == first[0];
  }
}
