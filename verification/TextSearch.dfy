/** The `string_view` operations the parser is built from. */
module TextSearch {
  import opened Texts

  // ----- Searching --------------------------------------------------------------------------

  predicate OccursAt(s: Text, p: Text, i: nat) {
    i + |p| <= |s| && s[i..i + |p|] == p
  }

  /** `find`: the first occurrence from `i` on. */
  function FindFrom(s: Text, p: Text, i: nat): (r: Option<nat>)
    ensures r.Some? ==> i <= r.value && OccursAt(s, p, r.value) && forall j :: i <= j < r.value ==> !OccursAt(s, p, j)
    ensures r.None? ==> forall j :: i <= j ==> !OccursAt(s, p, j)
    decreases |s| - i
  {
    if i + |p| > |s| then None
    else if s[i..i + |p|] == p then Some(i)
    else FindFrom(s, p, i + 1)
  }

  function Find(s: Text, p: Text): Option<nat> {
    FindFrom(s, p, 0)
  }

  /** `rfind`: the last occurrence before or at `i`. */
  function FindLast(s: Text, p: Text, i: nat): (r: Option<nat>)
    ensures r.Some? ==> r.value <= i && OccursAt(s, p, r.value) && forall j :: r.value < j <= i ==> !OccursAt(s, p, j)
    ensures r.None? ==> forall j :: 0 <= j <= i ==> !OccursAt(s, p, j)
  {
    if OccursAt(s, p, i) then Some(i)
    else if i == 0 then None
    else FindLast(s, p, i - 1)
  }

  function RFind(s: Text, p: Text): Option<nat> {
    FindLast(s, p, |s|)
  }

  lemma {:induction false} FindIs(s: Text, p: Text, k: nat)
    requires OccursAt(s, p, k) && forall j :: 0 <= j < k ==> !OccursAt(s, p, j)
    ensures Find(s, p) == Some(k)
  {
  }

  lemma {:induction false} RFindIs(s: Text, p: Text, k: nat)
    requires OccursAt(s, p, k) && forall j :: k < j <= |s| ==> !OccursAt(s, p, j)
    ensures RFind(s, p) == Some(k)
  {
    assert k <= |s|;
  }

  predicate Contains(s: Text, p: Text) {
    Find(s, p).Some?
  }

  // ----- Runs of characters -----------------------------------------------------------------

  predicate IsBlank(c: Byte) {
    c == ' ' || c == '\t'
  }

  predicate IsDigit(c: Byte) {
    '0' <= c <= '9'
  }

  predicate IsLowerHex(c: Byte) {
    IsDigit(c) || 'a' <= c <= 'f'
  }

  predicate IsHex(c: Byte) {
    IsLowerHex(c) || 'A' <= c <= 'F'
  }

  /** How many leading characters satisfy `p`. */
  function Span(s: Text, p: Byte -> bool): (n: nat)
    ensures n <= |s|
    ensures forall i :: 0 <= i < n ==> p(s[i])
    ensures n < |s| ==> !p(s[n])
  {
    if s == [] || !p(s[0]) then 0 else 1 + Span(s[1..], p)
  }

  lemma {:induction false} SpanIs(s: Text, p: Byte -> bool, n: nat)
    requires n <= |s| && (forall i :: 0 <= i < n ==> p(s[i])) && (n < |s| ==> !p(s[n]))
    ensures Span(s, p) == n
  {
  }

  function SkipSpaces(s: Text): Text {
    s[Span(s, IsBlank)..]
  }

  /** The leading digits, and what follows. */
  function Digits(s: Text): (Text, Text) {
    var n := Span(s, IsDigit);
    (s[..n], s[n..])
  }

  function HexDigits(s: Text): (Text, Text) {
    var n := Span(s, IsHex);
    (s[..n], s[n..])
  }

  method ConsumeDigits(s: Text) returns (result: Text, rest: Text)
    ensures (result, rest) == Digits(s)
  {
    var i := 0;
    while i < |s| && '0' <= s[i] <= '9'
      invariant i <= |s|
      invariant forall k :: 0 <= k < i ==> IsDigit(s[k])
    {
      i := i + 1;
    }
    SpanIs(s, IsDigit, i);
    return s[..i], s[i..];
  }

  method ConsumeHex(s: Text) returns (result: Text, rest: Text)
    ensures (result, rest) == HexDigits(s)
  {
    var i := 0;
    while i < |s| && ('0' <= s[i] <= '9' || 'a' <= s[i] <= 'f' || 'A' <= s[i] <= 'F')
      invariant i <= |s|
      invariant forall k :: 0 <= k < i ==> IsHex(s[k])
    {
      i := i + 1;
    }
    SpanIs(s, IsHex, i);
    return s[..i], s[i..];
  }

  // ----- Numbers ----------------------------------------------------------------------------

  function DigitValue(c: Byte): (v: nat)
    requires IsHex(c)
    ensures v < 16
  {
    if IsDigit(c) then c as int - '0' as int
    else if 'a' <= c <= 'f' then c as int - 'a' as int + 10
    else c as int - 'A' as int + 10
  }

  function ValueOf(s: Text, base: nat): nat
    requires forall i :: 0 <= i < |s| ==> IsHex(s[i])
  {
    if s == [] then 0 else ValueOf(s[..|s| - 1], base) * base + DigitValue(s[|s| - 1])
  }

  /** `from_chars` on the leading decimal digits; 0 if there are none or the value is out of range. */
  function ParseDecimal(s: Text, limit: nat): (v: nat)
    requires limit > 0
    ensures v < limit
  {
    var v := ValueOf(Digits(s).0, 10);
    if v < limit then v else 0
  }

  function StripHexPrefix(s: Text): Text {
    if "0x" <= s || "0X" <= s then s[2..] else s
  }

  function ParseHex64(s: Text): Word64 {
    var v := ValueOf(HexDigits(StripHexPrefix(s)).0, 16);
    if v < TWO_64 then v else 0
  }

  /** `from_chars` on a signed 32-bit number. */
  function ParseInt32(s: Text): (v: int)
    ensures -0x8000_0000 <= v < 0x8000_0000
  {
    if "-" <= s then
      var v: int := ValueOf(Digits(s[1..]).0, 10);
      if v <= 0x8000_0000 then -v else 0
    else
      var v: int := ValueOf(Digits(s).0, 10);
      if v < 0x8000_0000 then v else 0
  }

  // ----- Printing numbers ---------------------------------------------------------------------

  function HexDigit(n: nat): Byte
    requires n < 16
  {
    if n < 10 then Digit(n) else (n - 10 + 'a' as int) as char
  }

  function Hex(n: nat): (t: Text)
    ensures t != []
  {
    if n < 16 then [HexDigit(n)] else Hex(n / 16) + [HexDigit(n % 16)]
  }

  /** `n` in exactly `width` decimal digits. */
  function Padded(n: nat, width: nat): (t: Text)
    ensures |t| == width
    decreases width
  {
    if width == 0 then [] else Padded(n / 10, width - 1) + [Digit(n % 10)]
  }

  lemma {:induction false} DecimalValue(n: nat)
    ensures Decimal(n) != []
    ensures forall i :: 0 <= i < |Decimal(n)| ==> IsDigit(Decimal(n)[i])
    ensures ValueOf(Decimal(n), 10) == n
    decreases n
  {
    if n < 10 {
      assert [Digit(n)][..0] == [];
    } else {
      DecimalValue(n / 10);
      assert Decimal(n)[..|Decimal(n)| - 1] == Decimal(n / 10);
    }
  }

  lemma {:induction false} HexValue(n: nat)
    ensures forall i :: 0 <= i < |Hex(n)| ==> IsLowerHex(Hex(n)[i])
    ensures ValueOf(Hex(n), 16) == n
    decreases n
  {
    if n < 16 {
      assert [HexDigit(n)][..0] == [];
    } else {
      HexValue(n / 16);
      assert Hex(n)[..|Hex(n)| - 1] == Hex(n / 16);
    }
  }

  function Pow10(k: nat): nat {
    if k == 0 then 1 else 10 * Pow10(k - 1)
  }

  lemma {:induction false} PaddedValue(n: nat, width: nat)
    requires n < Pow10(width)
    ensures forall i :: 0 <= i < |Padded(n, width)| ==> IsDigit(Padded(n, width)[i])
    ensures ValueOf(Padded(n, width), 10) == n
    decreases width
  {
    if width > 0 {
      PaddedValue(n / 10, width - 1);
      assert Padded(n, width)[..width - 1] == Padded(n / 10, width - 1);
    }
  }
}
