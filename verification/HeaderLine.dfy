/** The first line of a printed event, up to and including its name, and reading it back. */
module HeaderLine {
  import opened Texts
  import opened TextSearch
  import opened PerfScriptParser

  // ----- Printing ---------------------------------------------------------------------------

  function Spaces(n: nat): (s: Text)
    ensures |s| == n && forall i :: 0 <= i < n ==> s[i] == ' '
  {
    seq(n, _ => ' ')
  }

  predicate AllBlank(s: Text) {
    forall i :: 0 <= i < |s| ==> s[i] == ' ' || s[i] == '\t'
  }

  predicate NoBlankFirst(s: Text) {
    s != [] ==> s[0] != ' ' && s[0] != '\t'
  }

  /** How far the line and the period are indented, the period, the blanks behind it, and what follows
      the event's name up to the next blank. */
  datatype HeaderLayout = HeaderLayout(indent: nat, blanks: nat, period: nat, gap: nat, config: Text)

  predicate IsHeaderLayout(h: HeaderLayout) {
    h.gap > 0 && (h.config != [] ==> h.config[0] == ':' || h.config[0] == '/') && ' ' !in h.config
  }

  function NameText(h: HeaderLayout, name: Text, rest: Text): Text {
    Spaces(h.blanks) + (Decimal(h.period) + (Spaces(h.gap) + (name + (h.config + rest))))
  }

  function StampText(timeNs: Word64, rest: Text): Text {
    Decimal(timeNs / 1_000_000_000) + ("." + (Padded(timeNs % 1_000_000_000, 9) + (":" + rest)))
  }

  /** The line of an event: process and thread, seconds and nanoseconds, period, name, and what the event
      is about. */
  function HeaderText(h: HeaderLayout, pid: nat, tid: nat, timeNs: Word64, name: Text, rest: Text): Text {
    Spaces(h.indent) +
    (Decimal(pid) + ("/" + (Decimal(tid) + (" " + StampText(timeNs, NameText(h, name, rest))))))
  }

  // ----- Leading runs -------------------------------------------------------------------------

  lemma {:induction false} DigitsThen(d: Text, rest: Text)
    requires forall i :: 0 <= i < |d| ==> IsDigit(d[i])
    requires rest == [] || !IsDigit(rest[0])
    ensures Digits(d + rest) == (d, rest)
  {
    SpanIs(d + rest, IsDigit, |d|);
  }

  lemma {:induction false} HexThen(d: Text, rest: Text)
    requires forall i :: 0 <= i < |d| ==> IsHex(d[i])
    requires rest == [] || !IsHex(rest[0])
    ensures HexDigits(d + rest) == (d, rest)
  {
    SpanIs(d + rest, IsHex, |d|);
  }

  lemma {:induction false} BlanksThen(n: nat, rest: Text)
    requires NoBlankFirst(rest)
    ensures SkipSpaces(Spaces(n) + rest) == rest
  {
    SpanIs(Spaces(n) + rest, IsBlank, n);
  }

  lemma {:induction false} BlankRun(blanks: Text, rest: Text)
    requires AllBlank(blanks) && NoBlankFirst(rest)
    ensures SkipSpaces(blanks + rest) == rest
  {
    SpanIs(blanks + rest, IsBlank, |blanks|);
  }

  // ----- Numbers ----------------------------------------------------------------------------

  /** The number that hex digits stand for, of either case. */
  function HexNumber(s: Text): nat
    requires forall i :: 0 <= i < |s| ==> s[i] in "0123456789abcdefABCDEF"
  {
    if s == [] then 0 else 16 * HexNumber(s[..|s| - 1]) + NibbleOf(s[|s| - 1])
  }

  function NibbleOf(c: Byte): (n: nat)
    requires c in "0123456789abcdefABCDEF"
    ensures n < 16 && (c == "0123456789abcdef"[n] || c == "0123456789ABCDEF"[n])
  {
    if c <= '9' then c as int - 48 else if c <= 'F' then c as int - 55 else c as int - 87
  }

  lemma {:induction false} HexNumberIs(s: Text)
    requires forall i :: 0 <= i < |s| ==> s[i] in "0123456789abcdefABCDEF"
    ensures (forall i :: 0 <= i < |s| ==> IsHex(s[i])) && ValueOf(s, 16) == HexNumber(s)
    decreases |s|
  {
    if s != [] {
      HexNumberIs(s[..|s| - 1]);
    }
  }

  /** A number that does not fit 64 bits is read as 0. */
  function Fit64(n: nat): Word64 {
    if n < 0x1_0000_0000_0000_0000 then n else 0
  }

  /** A hex number of either case, with "0x" or "0X" before it or not, is read up to the first other
      character. */
  lemma {:induction false} HexRead(prefix: Text, s: Text, rest: Text)
    requires prefix == [] || prefix == "0x" || prefix == "0X"
    requires s != [] && forall i :: 0 <= i < |s| ==> s[i] in "0123456789abcdefABCDEF"
    requires rest != [] ==> rest[0] !in "0123456789abcdefABCDEFxX"
    ensures ParseHex64(prefix + (s + rest)) == Fit64(HexNumber(s))
  {
    hide HexNumber, ValueOf, HexDigits;
    HexNumberIs(s);
    HexThen(s, rest);
    var t := s + rest;
    assert |t| >= 2 ==> t[1] != 'x' && t[1] != 'X';
    if prefix == [] {
      assert prefix + t == t && StripHexPrefix(t) == t;
    } else {
      assert (prefix + t)[..2] == prefix && (prefix + t)[2..] == t;
      assert StripHexPrefix(prefix + t) == t;
    }
  }

  // ----- Reading ----------------------------------------------------------------------------

  /** A number that does not fit 32 bits is read as 0. */
  function Fit32(n: nat): Word32 {
    if n < 0x1_0000_0000 then n else 0
  }

  lemma {:induction false} IdsBack(indent: nat, pid: nat, tid: nat, rest: Text)
    ensures ParseIds(Spaces(indent) + (Decimal(pid) + ("/" + (Decimal(tid) + (" " + rest))))) ==
            Some((Fit32(pid), Fit32(tid), " " + rest))
  {
    hide Digits, ValueOf, SkipSpaces;
    DecimalValue(pid);
    DecimalValue(tid);
    var b := " " + rest;
    var a := "/" + (Decimal(tid) + b);
    assert IsDigit(Decimal(pid)[0]);
    BlanksThen(indent, Decimal(pid) + a);
    DigitsThen(Decimal(pid), a);
    assert a[1..] == Decimal(tid) + b;
    DigitsThen(Decimal(tid), b);
    DigitsAlone(Decimal(pid));
    DigitsAlone(Decimal(tid));
  }

  lemma {:induction false} DigitsAlone(d: Text)
    requires forall i :: 0 <= i < |d| ==> IsDigit(d[i])
    ensures Digits(d).0 == d
  {
    assert d + [] == d;
    DigitsThen(d, []);
  }

  lemma {:induction false} Billion()
    ensures Pow10(9) == 1_000_000_000
  {
    assert Pow10(5) == 100_000;
  }

  lemma {:induction false} TimeBack(time: Word64)
    ensures ParseTime(Decimal(time / 1_000_000_000), Padded(time % 1_000_000_000, 9)) == time
  {
    hide Pow10, Padded, Decimal, ValueOf, Digits;
    var hi, lo := Decimal(time / 1_000_000_000), Padded(time % 1_000_000_000, 9);
    Billion();
    DecimalValue(time / 1_000_000_000);
    PaddedValue(time % 1_000_000_000, 9);
    DigitsAlone(hi);
    DigitsAlone(lo);
    assert lo[..9] + seq(0, _ => '0') == lo;
  }

  lemma {:induction false} TimesTen(a: nat, b: nat)
    ensures a * b * 10 == a * (10 * b)
  {
  }

  lemma {:induction false} ZerosBehind(f: Text, k: nat)
    requires forall i :: 0 <= i < |f| ==> IsDigit(f[i])
    ensures ValueOf(f + seq(k, _ => '0'), 10) == ValueOf(f, 10) * Pow10(k)
    decreases k
  {
    if k == 0 {
      assert f + seq(0, _ => '0') == f;
    } else {
      var before := f + seq(k - 1, _ => '0');
      ZerosBehind(f, k - 1);
      assert f + seq(k, _ => '0') == before + ['0'];
      assert (before + ['0'])[..|before|] == before;
      assert ValueOf(before + ['0'], 10) == ValueOf(before, 10) * 10;
      TimesTen(ValueOf(f, 10), Pow10(k - 1));
    }
  }

  /** Any number of digits behind the point: fewer than nine stand for the leading ones, more are cut. */
  lemma {:induction false} FractionBack(seconds: nat, fraction: Text)
    requires forall i :: 0 <= i < |fraction| ==> IsDigit(fraction[i])
    ensures ValueOf(fraction[..Min(|fraction|, 9)], 10) * Pow10(9 - Min(|fraction|, 9)) < 1_000_000_000
    ensures ParseTime(Decimal(seconds), fraction) ==
            ((if seconds < TWO_64 then seconds else 0) * 1_000_000_000 +
             ValueOf(fraction[..Min(|fraction|, 9)], 10) * Pow10(9 - Min(|fraction|, 9))) % TWO_64
  {
    hide Decimal, ValueOf, Pow10, Digits;
    var used := fraction[..Min(|fraction|, 9)];
    var nine := used + seq(9 - |used|, _ => '0');
    DecimalValue(seconds);
    DigitsAlone(Decimal(seconds));
    DigitsAlone(nine);
    ZerosBehind(used, 9 - |used|);
    ValueBound(nine);
    Billion();
  }

  lemma {:induction false} ValueBound(s: Text)
    requires forall i :: 0 <= i < |s| ==> IsDigit(s[i])
    ensures ValueOf(s, 10) < Pow10(|s|)
    decreases |s|
  {
    if s != [] {
      ValueBound(s[..|s| - 1]);
    }
  }

  lemma {:induction false} StampBack(time: Word64, rest: Text)
    ensures var hi, lo := Decimal(time / 1_000_000_000), Padded(time % 1_000_000_000, 9);
            ParseStamp(" " + (hi + ("." + (lo + (":" + rest))))) == Some((time, rest))
  {
    hide ParseTime, Padded;
    var hi, lo := Decimal(time / 1_000_000_000), Padded(time % 1_000_000_000, 9);
    TimeBack(time);
    DecimalValue(time / 1_000_000_000);
    Billion();
    PaddedValue(time % 1_000_000_000, 9);
    var c := "." + (lo + (":" + rest));
    assert IsDigit(hi[0]);
    assert " " + (hi + c) == Spaces(1) + (hi + c);
    BlanksThen(1, hi + c);
    DigitsThen(hi, c);
    assert c[1..] == lo + (":" + rest);
    DigitsThen(lo, ":" + rest);
    assert (":" + rest)[1..] == rest;
  }

  predicate IsName(name: Text) {
    name != [] && (forall i :: 0 <= i < |name| ==> NotNameEnd(name[i])) && !IsBlank(name[0])
  }

  lemma {:induction false} NameBack(h: HeaderLayout, name: Text, rest: Text)
    requires IsHeaderLayout(h) && IsName(name) && (rest != [] ==> rest[0] == ' ')
    ensures ParseName(NameText(h, name, rest)) == (name, rest)
  {
    hide Span, Decimal, SkipSpaces, Digits, NotNameEnd, NotSpace;
    var g := h.config + rest;
    var f := name + g;
    var e := Spaces(h.gap) + f;
    DecimalValue(h.period);
    BlanksThen(h.blanks, Decimal(h.period) + e);
    assert e[0] == ' ';
    DigitsThen(Decimal(h.period), e);
    assert f[0] == name[0];
    BlanksThen(h.gap, f);
    NameEnds(name, h.config, rest);
    assert f[..|name|] == name && f[|name|..] == g && g[|h.config|..] == rest;
  }

  lemma {:induction false} NameEnds(name: Text, config: Text, rest: Text)
    requires IsName(name) && (rest != [] ==> rest[0] == ' ')
    requires (config != [] ==> config[0] == ':' || config[0] == '/') && ' ' !in config
    ensures Span(name + (config + rest), NotNameEnd) == |name| && Span(config + rest, NotSpace) == |config|
  {
    var g := config + rest;
    assert g != [] ==> !NotNameEnd(g[0]);
    SpanIs(name + g, NotNameEnd, |name|);
    SpanIs(g, NotSpace, |config|);
  }

  lemma {:induction false} NoDecodeError(indent: nat, pid: nat, rest: Text)
    ensures ParseDecodeError(Spaces(indent) + (Decimal(pid) + rest)) == None
  {
    hide Decimal;
    DecimalValue(pid);
    var s := Decimal(pid) + rest;
    assert IsDigit(s[0]);
    BlanksThen(indent, s);
  }

  /** A printed first line is no decode error, and gives back what it was printed from. */
  lemma {:induction false} HeaderBack(h: HeaderLayout, pid: nat, tid: nat, timeNs: Word64, name: Text, rest: Text)
    requires IsHeaderLayout(h) && IsName(name) && (rest != [] ==> rest[0] == ' ')
    ensures var line := HeaderText(h, pid, tid, timeNs, name, rest);
            ParseDecodeError(line) == None &&
            ParseHeader(line) == Some(Header(Fit32(pid), Fit32(tid), timeNs, name, rest))
  {
    hide ParseIds, ParseStamp, ParseName, ParseDecodeError, NameText;
    var named := NameText(h, name, rest);
    NoDecodeError(h.indent, pid, "/" + (Decimal(tid) + (" " + StampText(timeNs, named))));
    IdsBack(h.indent, pid, tid, StampText(timeNs, named));
    StampBack(timeNs, named);
    NameBack(h, name, rest);
  }

  // ----- Lines that are no event ----------------------------------------------------------------

  /** Under a first line with a name of another kind nothing is an event; nor is a branch without an arrow. */
  lemma {:induction false} OtherEvent(h: HeaderLayout, pid: nat, tid: nat, timeNs: Word64, name: Text, rest: Text,
      more: seq<Text>)
    requires IsHeaderLayout(h) && IsName(name) && (rest != [] ==> rest[0] == ' ')
    requires name !in ["branches", "cbr", "cycles", "branch-misses", "cache-misses"] ||
             (name == "branches" && forall i :: !OccursAt(rest, " => ", i))
    ensures ParseGroup([HeaderText(h, pid, tid, timeNs, name, rest)] + more) == None
  {
    hide HeaderText, ParseDecodeError, ParseHeader, FindFrom, AddressAt, SkipSpaces;
    var line := HeaderText(h, pid, tid, timeNs, name, rest);
    assert ([line] + more)[0] == line;
    HeaderBack(h, pid, tid, timeNs, name, rest);
    if name == "branches" {
      NoArrow(rest);
    }
  }

  lemma {:induction false} NoArrow(rest: Text)
    requires forall i :: !OccursAt(rest, " => ", i)
    ensures ParseBranch(rest) == None
  {
    hide FindFrom, Span;
    var n := Span(rest, IsBlank);
    var r := rest[n..];
    forall i: nat ensures !OccursAt(r, " => ", i) {
      if i + 4 <= |r| {
        assert r[i..i + 4] == rest[n + i..n + i + 4];
        assert !OccursAt(rest, " => ", n + i);
      }
    }
  }

  /** A first line that begins with neither a number nor the words of an error is no event. */
  lemma {:induction false} NoHeader(blanks: Text, s: Text, more: seq<Text>)
    requires AllBlank(blanks) && NoBlankFirst(s)
    requires s == [] || (s[0] !in "0123456789" && !("instruction trace error" <= s))
    ensures ParseGroup([blanks + s] + more) == None
  {
    assert ([blanks + s] + more)[0] == blanks + s;
    BlankRun(blanks, s);
    if s == [] {
      assert !("instruction trace error" <= s);
    } else {
      SpanIs(s, IsDigit, 0);
    }
  }

  predicate AllDigits(s: Text) {
    forall i :: 0 <= i < |s| ==> s[i] in "0123456789"
  }

  predicate EndsDigits(rest: Text) {
    rest == [] || rest[0] !in "0123456789"
  }

  lemma {:induction false} DigitsEnd(d: Text, rest: Text)
    requires AllDigits(d) && EndsDigits(rest)
    ensures Digits(d + rest) == (d, rest)
  {
    forall i | 0 <= i < |d| ensures IsDigit(d[i]) {
      assert d[i] in "0123456789";
    }
    DigitsThen(d, rest);
  }

  /** A first line is no event if no slash follows its first number. */
  lemma {:induction false} NoSlash(indent: nat, pid: nat, rest: Text, more: seq<Text>)
    requires EndsDigits(rest) && (rest != [] ==> rest[0] != '/')
    ensures ParseGroup([Spaces(indent) + (Decimal(pid) + rest)] + more) == None
  {
    hide Decimal, ValueOf, ParseDecodeError, Digits;
    var line := Spaces(indent) + (Decimal(pid) + rest);
    assert ([line] + more)[0] == line;
    NoDecodeError(indent, pid, rest);
    DecimalValue(pid);
    BlanksThen(indent, Decimal(pid) + rest);
    DigitsThen(Decimal(pid), rest);
  }

  /** Nor if no point follows the seconds, or no colon the fraction. */
  lemma {:induction false} NoStamp(indent: nat, pid: nat, tid: nat, seconds: Text, fraction: Text, rest: Text,
      more: seq<Text>)
    requires seconds != [] && AllDigits(seconds) && AllDigits(fraction) && EndsDigits(rest)
    ensures rest == [] || rest[0] != '.' ==>
              ParseGroup([Spaces(indent) + (Decimal(pid) + ("/" + (Decimal(tid) + (" " + (seconds +
                rest)))))] + more) == None
    ensures rest == [] || rest[0] != ':' ==>
              ParseGroup([Spaces(indent) + (Decimal(pid) + ("/" + (Decimal(tid) + (" " + (seconds + ("." + (fraction +
                rest)))))))] + more) == None
  {
    hide ParseIds, ParseDecodeError, Decimal, ParseStamp, AllDigits;
    NoStampField(indent, pid, tid, seconds + rest, more);
    NoStampField(indent, pid, tid, seconds + ("." + (fraction + rest)), more);
    if rest == [] || rest[0] != '.' {
      NoPoint(seconds, rest);
    }
    if rest == [] || rest[0] != ':' {
      NoColon(seconds, fraction, rest);
    }
  }

  lemma {:induction false} NoStampField(indent: nat, pid: nat, tid: nat, stamp: Text, more: seq<Text>)
    ensures ParseStamp(" " + stamp) == None ==>
              ParseGroup([Spaces(indent) + (Decimal(pid) + ("/" + (Decimal(tid) + (" " + stamp))))] + more) == None
  {
    hide ParseIds, ParseDecodeError, Decimal, ParseStamp;
    var line := Spaces(indent) + (Decimal(pid) + ("/" + (Decimal(tid) + (" " + stamp))));
    assert ([line] + more)[0] == line;
    NoDecodeError(indent, pid, "/" + (Decimal(tid) + (" " + stamp)));
    IdsBack(indent, pid, tid, stamp);
  }

  lemma {:induction false} NoPoint(seconds: Text, rest: Text)
    requires seconds != [] && AllDigits(seconds) && EndsDigits(rest) && (rest != [] ==> rest[0] != '.')
    ensures ParseStamp(" " + (seconds + rest)) == None
  {
    hide Digits, SkipSpaces, ParseTime;
    assert (seconds + rest)[0] == seconds[0] && seconds[0] in "0123456789";
    assert " " + (seconds + rest) == Spaces(1) + (seconds + rest);
    BlanksThen(1, seconds + rest);
    DigitsEnd(seconds, rest);
  }

  lemma {:induction false} NoColon(seconds: Text, fraction: Text, rest: Text)
    requires seconds != [] && AllDigits(seconds) && AllDigits(fraction) && EndsDigits(rest)
    requires rest != [] ==> rest[0] != ':'
    ensures ParseStamp(" " + (seconds + ("." + (fraction + rest)))) == None
  {
    hide Digits, SkipSpaces, ParseTime;
    var c := "." + (fraction + rest);
    assert (seconds + c)[0] == seconds[0] && seconds[0] in "0123456789";
    assert " " + (seconds + c) == Spaces(1) + (seconds + c);
    BlanksThen(1, seconds + c);
    DigitsEnd(seconds, c);
    assert c[1..] == fraction + rest;
    DigitsEnd(fraction, rest);
  }
}
