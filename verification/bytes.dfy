// Bytes as bit-vectors, and the numbers they stand for.
module Bytes {
  import opened Bits

  type byte = bv8

  function Mark(digit: bool, mask: byte): byte {
    if digit then mask else 0
  }

  /** A byte from its eight digits, least significant first. */
  function FromDigits(d: seq<bool>): byte
    requires |d| == 8
  {
    Mark(d[0], 1) | Mark(d[1], 2) | Mark(d[2], 4) | Mark(d[3], 8)
    | Mark(d[4], 16) | Mark(d[5], 32) | Mark(d[6], 64) | Mark(d[7], 128)
  }

  function ToDigits(b: byte): (d: seq<bool>)
    ensures |d| == 8
  {
    [b & 1 != 0, b & 2 != 0, b & 4 != 0, b & 8 != 0, b & 16 != 0, b & 32 != 0, b & 64 != 0, b & 128 != 0]
  }

  function Unit(digit: bool): nat {
    if digit then 1 else 0
  }

  function FromBinary(d: seq<bool>): nat {
    if d == [] then 0 else Unit(d[0]) + 2 * FromBinary(d[1..])
  }

  /** The low `width` binary digits of a number. */
  function Binary(n: nat, width: nat): (d: seq<bool>)
    ensures |d| == width
  {
    if width == 0 then [] else [n % 2 == 1] + Binary(n / 2, width - 1)
  }

  function Value(b: byte): nat {
    FromBinary(ToDigits(b))
  }

  /** The low byte of a number: a cast to eight bits. */
  function Low(n: nat): byte {
    FromDigits(Binary(n, 8))
  }

  lemma {:induction false} DigitsRoundTrip(d: seq<bool>)
    requires |d| == 8
    ensures ToDigits(FromDigits(d)) == d
  {
  }

  lemma {:induction false} ByteRoundTrip(b: byte)
    ensures FromDigits(ToDigits(b)) == b
  {
  }

  lemma {:induction false} BinaryOfNumber(d: seq<bool>)
    ensures Binary(FromBinary(d), |d|) == d && FromBinary(d) < Pow2(|d|)
    decreases |d|
  {
    if d != [] {
      BinaryOfNumber(d[1..]);
      assert d == [d[0]] + d[1..];
    }
  }

  /** What is left of a number above its low `width` digits. */
  function Above(n: nat, width: nat): nat
    decreases width
  {
    if width == 0 then n else Above(n / 2, width - 1)
  }

  lemma {:induction false} NumberOfBinary(n: nat, width: nat)
    ensures n == Above(n, width) * Pow2(width) + FromBinary(Binary(n, width))
    decreases width
  {
    if width > 0 {
      NumberOfBinary(n / 2, width - 1);
      assert Pow2(width) == 2 * Pow2(width - 1);
      assert Binary(n, width)[1..] == Binary(n / 2, width - 1);
      hide Pow2, Binary;
      Halved(n, Above(n / 2, width - 1), Pow2(width - 1), FromBinary(Binary(n / 2, width - 1)), Pow2(width));
    }
  }

  lemma {:induction false} Halved(n: nat, above: nat, p: nat, rest: nat, twice: nat)
    requires n / 2 == above * p + rest && twice == 2 * p
    ensures n == above * twice + Unit(n % 2 == 1) + 2 * rest
  {
    MulAssoc(2, p, above);
    assert above * twice == 2 * (above * p);
  }

  /** A byte's value is below 256, and bytes with the same value are the same byte. */
  lemma {:induction false} ValueDetermines(a: byte, b: byte)
    ensures Value(a) < 256 && (Value(a) == Value(b) <==> a == b)
  {
    hide FromDigits, ToDigits;
    BinaryOfNumber(ToDigits(a));
    BinaryOfNumber(ToDigits(b));
    ByteRoundTrip(a);
    ByteRoundTrip(b);
    Pow2Values();
  }

  /** The low byte is the remainder by 256. */
  lemma {:induction false} LowIsRemainder(n: nat)
    ensures n / 256 >= 0 && n == n / 256 * 256 + Value(Low(n)) && Value(Low(n)) < 256
  {
    DigitsRoundTrip(Binary(n, 8));
    hide FromDigits, ToDigits, Binary, FromBinary, Above;
    NumberOfBinary(n, 8);
    BinaryOfNumber(Binary(n, 8));
    Pow2Values();
    ModUnique(n, Above(n, 8), Value(Low(n)), 256);
  }
}
