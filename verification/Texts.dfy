/** Bytes, strings and machine words, as the C++ code sees them. */
module Texts {

  /** A `char`/`std::byte`: both are eight bits wide. */
  type Byte = c: char | c as int < 256 witness 'a'

  /** A `std::string` is a sequence of bytes, with no encoding attached. */
  type Text = seq<Byte>

  const TWO_16 := 0x1_0000
  const TWO_32 := 0x1_0000_0000
  const TWO_64 := 0x1_0000_0000_0000_0000

  type Word8 = x: nat | x < 256
  type Word16 = x: nat | x < TWO_16
  type Word32 = x: nat | x < TWO_32
  type Word64 = x: nat | x < TWO_64

  datatype Option<+T> = None | Some(value: T)

  /** A thread's identity in every table of the program. */
  datatype ThreadKey = ThreadKey(pid: Word64, tid: Word64)

  lemma {:induction false} Join<T>(a: seq<T>, b: seq<T>, c: seq<T>)
    ensures (a + b) + c == a + (b + c)
  {
  }

  function Max(a: nat, b: nat): nat {
    if a < b then b else a
  }

  function Min(a: nat, b: nat): nat {
    if a < b then a else b
  }

  /** `std::to_string` on an unsigned number. */
  function Decimal(n: nat): Text {
    if n < 10 then [Digit(n)] else Decimal(n / 10) + [Digit(n % 10)]
  }

  function Digit(n: nat): Byte
    requires n < 10
  {
    (n + '0' as int) as char
  }
}
