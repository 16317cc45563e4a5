/** Bit fields and words on the wire: little-endian bytes, fields packed from the lowest bit up. */
module Wire {
  import opened Texts

  function Pow2(w: nat): (p: nat)
    ensures p > 0
  {
    if w == 0 then 1 else 2 * Pow2(w - 1)
  }

  /** Packs each value into its width, lowest bits first; a wider value loses its upper bits. */
  function Pack(widths: seq<nat>, values: seq<nat>): nat
    requires |widths| == |values|
  {
    if widths == [] then 0
    else values[0] % Pow2(widths[0]) + Pow2(widths[0]) * Pack(widths[1..], values[1..])
  }

  function Unpack(widths: seq<nat>, word: nat): (values: seq<nat>)
    ensures |values| == |widths|
  {
    if widths == [] then []
    else [word % Pow2(widths[0])] + Unpack(widths[1..], Above(word, Pow2(widths[0])))
  }

  /** What is left of a word above its lowest field. */
  function Above(word: nat, p: nat): (high: nat)
    requires p > 0
  {
    assert word == p * (word / p) + word % p;
    word / p
  }

  function Width(widths: seq<nat>): nat {
    if widths == [] then 0 else widths[0] + Width(widths[1..])
  }

  predicate Fits(widths: seq<nat>, values: seq<nat>) {
    |widths| == |values| && forall i :: 0 <= i < |values| ==> values[i] < Pow2(widths[i])
  }

  lemma {:induction false} SplitWord(low: nat, high: nat, p: nat)
    requires low < p
    ensures (low + p * high) % p == low && (low + p * high) / p == high
  {
    var word := low + p * high;
    var q, r := word / p, word % p;
    assert word == p * q + r;
    if q < high {
      assert p * (high - q) == p * high - p * q;
      AtLeast(high - q, p);
    } else if q > high {
      assert p * (q - high) == p * q - p * high;
      AtLeast(q - high, p);
    }
  }

  lemma {:induction false} AtLeast(d: nat, p: nat)
    requires d > 0
    ensures p * d >= p
  {
    assert p * d == p * (d - 1) + p;
  }

  /** Reading packed fields back gives every value that fits its width. */
  lemma {:induction false} UnpackPack(widths: seq<nat>, values: seq<nat>)
    requires Fits(widths, values)
    ensures Unpack(widths, Pack(widths, values)) == values
    decreases |widths|
  {
    if widths != [] {
      SmallMod(values[0], Pow2(widths[0]));
      SplitWord(values[0], Pack(widths[1..], values[1..]), Pow2(widths[0]));
      UnpackPack(widths[1..], values[1..]);
    }
  }

  lemma {:induction false} SmallMod(n: nat, p: nat)
    requires n < p
    ensures n % p == n
  {
  }

  lemma {:induction false} Pow2Add(a: nat, b: nat)
    ensures Pow2(a + b) == Pow2(a) * Pow2(b)
    decreases a
  {
    if a > 0 {
      Pow2Add(a - 1, b);
      assert Pow2(a + b) == 2 * Pow2(a - 1 + b);
    }
  }

  lemma {:induction false} FieldBound(low: nat, rest: nat, p: nat, n: nat)
    requires low < p && rest < n
    ensures low + p * rest < p * n
  {
    assert p * n == p * rest + p * (n - rest);
    AtLeast(n - rest, p);
  }

  lemma {:induction false} PackBound(widths: seq<nat>, values: seq<nat>)
    requires |widths| == |values|
    ensures Pack(widths, values) < Pow2(Width(widths))
    decreases |widths|
  {
    if widths != [] {
      PackBound(widths[1..], values[1..]);
      Pow2Add(widths[0], Width(widths[1..]));
      FieldBound(values[0] % Pow2(widths[0]), Pack(widths[1..], values[1..]), Pow2(widths[0]),
        Pow2(Width(widths[1..])));
    }
  }

  lemma {:induction false} SmallPowers()
    ensures Pow2(1) == 2 && Pow2(3) == 8 && Pow2(4) == 16
  {
    assert Pow2(2) == 4;
  }

  /** The field widths in use. */
  lemma {:induction false} Powers()
    ensures Pow2(4) == 16 && Pow2(8) == 256 && Pow2(12) == 4096 && Pow2(15) == 0x8000
    ensures Pow2(16) == TWO_16 && Pow2(32) == TWO_32 && Pow2(64) == TWO_64
  {
    hide Pow2;
    SmallPowers();
    Pow2Add(4, 4);
    Pow2Add(8, 4);
    Pow2Add(12, 3);
    Pow2Add(8, 8);
    Pow2Add(16, 16);
    Pow2Add(32, 32);
  }

  // ----- Bytes ------------------------------------------------------------------------------

  function ByteOf(n: nat): Byte {
    (n % 256) as char
  }

  function LittleEndian(n: nat, len: nat): (bytes: seq<Byte>)
    ensures |bytes| == len
    decreases len
  {
    if len == 0 then [] else [ByteOf(n)] + LittleEndian(n / 256, len - 1)
  }

  function FromLittleEndian(bytes: seq<Byte>): nat {
    if bytes == [] then 0 else bytes[0] as int + 256 * FromLittleEndian(bytes[1..])
  }

  lemma {:induction false} LittleEndianRoundTrip(n: nat, len: nat)
    requires n < Pow2(8 * len)
    ensures FromLittleEndian(LittleEndian(n, len)) == n
    decreases len
  {
    if len > 0 {
      Pow2Add(8, 8 * (len - 1));
      Powers();
      assert n / 256 < Pow2(8 * (len - 1));
      LittleEndianRoundTrip(n / 256, len - 1);
      assert LittleEndian(n, len)[1..] == LittleEndian(n / 256, len - 1);
    }
  }

  /** One 64-bit word. */
  function Word(n: Word64): (bytes: seq<Byte>)
    ensures |bytes| == 8
  {
    LittleEndian(n, 8)
  }

  lemma {:induction false} WordRoundTrip(n: Word64)
    ensures FromLittleEndian(Word(n)) == n
  {
    Powers();
    LittleEndianRoundTrip(n, 8);
  }

  function WordAt(bytes: seq<Byte>, index: nat): (w: Word64)
    requires 8 * (index + 1) <= |bytes|
  {
    WordBound(bytes[8 * index..8 * index + 8]);
    FromLittleEndian(bytes[8 * index..8 * index + 8])
  }

  lemma {:induction false} BytesBound(bytes: seq<Byte>)
    ensures FromLittleEndian(bytes) < Pow2(8 * |bytes|)
    decreases |bytes|
  {
    if bytes != [] {
      BytesBound(bytes[1..]);
      Pow2Add(8, 8 * (|bytes| - 1));
      Powers();
    }
  }

  lemma {:induction false} WordBound(bytes: seq<Byte>)
    requires |bytes| == 8
    ensures FromLittleEndian(bytes) < TWO_64
  {
    BytesBound(bytes);
    Powers();
  }
}
