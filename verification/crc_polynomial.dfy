// What the CRC is: the remainder of the message, as a polynomial over two elements, by x^8 + x^2 + x + 1.
module CrcPolynomial {
  import opened ProtocolDefs
  import opened Bytes
  import opened Crc8
  import opened HostProtocol

  // ---- Polynomials as bit sequences, highest power first ----

  /** Addition without carries. */
  function Plus(a: seq<bool>, b: seq<bool>): (r: seq<bool>)
    requires |a| == |b|
    ensures |r| == |a|
  {
    seq(|a|, i requires 0 <= i < |a| => a[i] != b[i])
  }

  function Zeros(n: nat): (r: seq<bool>)
    ensures |r| == n && forall i :: 0 <= i < n ==> !r[i]
  {
    seq(n, _ => false)
  }

  /** Multiplication without carries: shift and add, by the bits of `q`, lowest last. */
  function Times(q: seq<bool>, g: seq<bool>): (r: seq<bool>)
    requires g != []
    ensures |r| == |q| + |g| - 1
  {
    if q == [] then Zeros(|g| - 1)
    else
      var higher := Times(q[..|q| - 1], g) + [false];
      if q[|q| - 1] then Plus(higher, Zeros(|higher| - |g|) + g) else higher
  }

  function Mask(i: nat): byte {
    match i
    case 0 => 128
    case 1 => 64
    case 2 => 32
    case 3 => 16
    case 4 => 8
    case 5 => 4
    case 6 => 2
    case _ => 1
  }

  predicate Has(b: byte, mask: byte) {
    b & mask != 0
  }

  /** Bit `i` of a byte, counted from the most significant. */
  predicate BitAt(b: byte, i: nat) {
    Has(b, Mask(i))
  }

  function BitsOf(b: byte): (r: seq<bool>)
    ensures |r| == 8 && forall i :: 0 <= i < 8 ==> r[i] == BitAt(b, i)
  {
    seq(8, i requires 0 <= i < 8 => BitAt(b, i))
  }

  /** The bits of a message, first byte first. */
  function MessageBits(m: seq<byte>): (r: seq<bool>)
    ensures |r| == 8 * |m|
  {
    if m == [] then [] else MessageBits(m[..|m| - 1]) + BitsOf(m[|m| - 1])
  }

  /** x^8 + x^2 + x + 1. */
  const Generator: seq<bool> := [true, false, false, false, false, false, true, true, true]

  // ---- One bit of the division ----

  function Mixed(a: byte, b: byte): byte {
    a ^ b
  }

  function Doubled(b: byte): byte {
    b << 1
  }

  lemma {:induction false} TimesSnoc(q: seq<bool>, b: bool)
    ensures
      var higher := Times(q, Generator) + [false];
      Times(q + [b], Generator) == if b then Plus(higher, Zeros(|q|) + Generator) else higher
  {
    assert (q + [b])[..|q|] == q;
  }

  // Adding the generator to the low end touches the last nine bits only.
  lemma {:induction false} PlusLow(m: seq<bool>, a: seq<bool>, g: seq<bool>)
    requires |a| == |g|
    ensures Plus(m + a, Zeros(|m|) + g) == m + Plus(a, g)
  {
  }

  lemma {:induction false} XorAt(a: byte, b: byte, i: nat)
    requires i < 8
    ensures BitAt(Mixed(a, b), i) == (BitAt(a, i) != BitAt(b, i))
  {
    hide Has;
    XorMask(a, b, Mask(i));
  }

  lemma {:induction false} XorMask(a: byte, b: byte, mask: byte)
    requires mask in {1, 2, 4, 8, 16, 32, 64, 128}
    ensures Has(Mixed(a, b), mask) == (Has(a, mask) != Has(b, mask))
  {
    assert (a ^ b) & mask == (a & mask) ^ (b & mask);
  }

  lemma {:induction false} XorBits(a: byte, b: byte)
    ensures BitsOf(Mixed(a, b)) == Plus(BitsOf(a), BitsOf(b))
  {
    hide BitAt, BitsOf, Mixed;
    forall i | 0 <= i < 8 ensures BitAt(Mixed(a, b), i) == (BitAt(a, i) != BitAt(b, i)) { XorAt(a, b, i); }
  }

  lemma {:induction false} DoubledAt(b: byte, i: nat)
    requires i < 8
    ensures BitAt(Doubled(b), i) == (i < 7 && BitAt(b, i + 1))
  {
  }

  lemma {:induction false} DoubledBits(b: byte)
    ensures BitsOf(Doubled(b)) == BitsOf(b)[1..] + [false]
  {
    hide BitAt, BitsOf, Doubled;
    forall i | 0 <= i < 8 ensures BitAt(Doubled(b), i) == (i < 7 && BitAt(b, i + 1)) { DoubledAt(b, i); }
  }

  lemma {:induction false} ShiftAt(c: byte, i: nat)
    requires i < 8
    ensures BitAt(Shift(c), i) == ((i < 7 && BitAt(c, i + 1)) != (i >= 5 && BitAt(c, 0)))
  {
  }

  /** What one more data bit makes of the dividend: a zero brought down, and the generator added if it goes. */
  function BroughtDown(bits: seq<bool>, goes: bool): (r: seq<bool>)
    requires |bits| == 8
    ensures |r| == 9
  {
    if goes then Plus(bits + [false], Generator) else bits + [false]
  }

  lemma {:induction false} ShiftedBits(a: seq<bool>, b: seq<bool>)
    requires |a| == |b| == 8
    requires forall i :: 0 <= i < 8 ==> b[i] == ((i < 7 && a[i + 1]) != (i >= 5 && a[0]))
    ensures [false] + b == BroughtDown(a, a[0])
  {
  }

  // A shift drops the highest bit and, if it was set, adds the rest of the generator.
  lemma {:induction false} ShiftBits(c: byte)
    ensures [false] + BitsOf(Shift(c)) == BroughtDown(BitsOf(c), BitsOf(c)[0])
  {
    hide BitAt, BitsOf, Shift;
    var a, b := BitsOf(c), BitsOf(Shift(c));
    forall i | 0 <= i < 8 ensures b[i] == ((i < 7 && a[i + 1]) != (i >= 5 && a[0])) { ShiftAt(c, i); }
    ShiftedBits(a, b);
  }

  lemma {:induction false} PlusBroughtDown(a: seq<bool>, b: seq<bool>, goes: bool)
    requires |a| == |b| == 8
    ensures BroughtDown(Plus(a, b), goes) == Plus(BroughtDown(a, goes), b + [false])
  {
  }

  lemma {:induction false} PlusFront(a: seq<bool>, b: seq<bool>)
    requires |a| == |b| == 8
    ensures [b[0]] + Plus(a, b[1..] + [false]) == Plus([false] + a, b + [false])
  {
  }

  // The register and the data still to come, one bit on.
  lemma {:induction false} BitStep(c: byte, e: byte)
    ensures [BitsOf(e)[0]] + BitsOf(Mixed(Shift(c), Doubled(e))) == BroughtDown(BitsOf(Mixed(c, e)), BitsOf(c)[0])
  {
    hide BitAt, BitsOf, BroughtDown, Shift, Plus, Mixed, Doubled;
    XorBits(c, e);
    XorBits(Shift(c), Doubled(e));
    ShiftBits(c);
    DoubledBits(e);
    PlusBroughtDown(BitsOf(c), BitsOf(e), BitsOf(c)[0]);
    PlusFront(BitsOf(Shift(c)), BitsOf(e));
  }

  // One step of the long division.
  lemma {:induction false} DivisionStep(x: seq<bool>, c: byte, e: byte, q: seq<bool>)
    requires |q| == |x| && x + BitsOf(Mixed(c, e)) == Times(q, Generator)
    ensures
      x + [BitsOf(e)[0]] + BitsOf(Mixed(Shift(c), Doubled(e))) == Times(q + [BitsOf(c)[0]], Generator)
  {
    hide BitsOf, Times, Shift, Mixed, Doubled;
    BitStep(c, e);
    var goes, bits := BitsOf(c)[0], BitsOf(Mixed(c, e));
    TimesSnoc(q, goes);
    PlusLow(x, bits + [false], Generator);
    assert x + bits + [false] == x + (bits + [false]);
    var next := BitsOf(Mixed(Shift(c), Doubled(e)));
    assert x + [BitsOf(e)[0]] + next == x + ([BitsOf(e)[0]] + next);
  }

  /** The data byte with its first `k` bits gone. */
  function Remaining(b: byte, k: nat): byte {
    if k == 0 then b else Doubled(Remaining(b, k - 1))
  }

  lemma {:induction false} ShiftedIn(a: seq<bool>, k: nat)
    requires |a| == 8 && 0 < k < 8
    ensures (a[k - 1..] + Zeros(k - 1))[1..] + [false] == a[k..] + Zeros(k)
  {
  }

  lemma {:induction false} RemainingTop(b: byte, k: nat)
    requires k < 8
    ensures BitsOf(Remaining(b, k)) == BitsOf(b)[k..] + Zeros(k)
  {
    hide BitsOf, Doubled;
    if k > 0 {
      RemainingTop(b, k - 1);
      DoubledBits(Remaining(b, k - 1));
      ShiftedIn(BitsOf(b), k);
    }
  }

  lemma {:induction false} NothingRemains(b: byte)
    ensures Remaining(b, 8) == 0
  {
    assert Remaining(b, 1) == b << 1;
    assert Remaining(b, 2) == b << 2;
    assert Remaining(b, 3) == b << 3;
    assert Remaining(b, 4) == b << 4;
    assert Remaining(b, 5) == b << 5;
    assert Remaining(b, 6) == b << 6;
    assert Remaining(b, 7) == b << 7;
  }

  lemma {:induction false} Unshifted(c: byte, b: byte)
    ensures Shifts(c, 0) == c && Remaining(b, 0) == b
  {
  }

  lemma {:induction false} ShiftedOnce(c: byte, b: byte, k: nat)
    requires k > 0
    ensures Shifts(c, k) == Shift(Shifts(c, k - 1)) && Remaining(b, k) == Doubled(Remaining(b, k - 1))
  {
  }

  lemma {:induction false} NextBit(x: seq<bool>, a: seq<bool>, k: nat)
    requires |a| == 8 && 0 < k <= 8
    ensures x + a[..k] == x + a[..k - 1] + [(a[k - 1..] + Zeros(k - 1))[0]]
  {
  }

  // `k` steps take in the first `k` bits of the byte.
  lemma {:induction false} ByteDivision(x: seq<bool>, crc: byte, b: byte, q: seq<bool>, k: nat) returns (r: seq<bool>)
    requires k <= 8 && |q| == |x| && x + BitsOf(crc) == Times(q, Generator)
    ensures |r| == |x| + k
    ensures x + BitsOf(b)[..k] + BitsOf(Mixed(Shifts(Mixed(crc, b), k), Remaining(b, k))) == Times(r, Generator)
  {
    hide BitsOf, Times, Shift, Shifts, Remaining, Mixed, Doubled, Zeros;
    if k == 0 {
      r := q;
      XorTwice(crc, b);
      Unshifted(Mixed(crc, b), b);
      assert x + BitsOf(b)[..0] == x;
    } else {
      var p := ByteDivision(x, crc, b, q, k - 1);
      var c, e := Shifts(Mixed(crc, b), k - 1), Remaining(b, k - 1);
      RemainingTop(b, k - 1);
      DivisionStep(x + BitsOf(b)[..k - 1], c, e, p);
      r := p + [BitsOf(c)[0]];
      ShiftedOnce(Mixed(crc, b), b, k);
      NextBit(x, BitsOf(b), k);
    }
  }

  lemma {:induction false} XorTwice(c: byte, b: byte)
    ensures Mixed(Mixed(c, b), b) == c && Mixed(c, 0) == c
  {
  }

  // ---- The CRC ----

  /** The bits are a multiple of `g`. */
  ghost predicate Divisible(bits: seq<bool>, g: seq<bool>)
    requires g != []
  {
    exists q :: |q| + |g| - 1 == |bits| && Times(q, g) == bits
  }

  /** Every message followed by its CRC is a multiple of the generator. */
  lemma {:induction false} CrcDivides(m: seq<byte>) returns (q: seq<bool>)
    ensures |q| == 8 * |m|
    ensures Times(q, Generator) == MessageBits(m) + BitsOf(Crc(m))
  {
    hide BitsOf, Shifts, Remaining, Times, Mixed, Crc, MessageBits;
    if m == [] {
      q := [];
      ZeroBits();
    } else {
      var front, b := m[..|m| - 1], m[|m| - 1];
      var p := CrcDivides(front);
      q := ByteDivision(MessageBits(front), Crc(front), b, p, 8);
      NothingRemains(b);
      XorTwice(Shifts(Mixed(Crc(front), b), 8), 0);
      assert BitsOf(b)[..8] == BitsOf(b);
      LastByte(front, b);
      assert m == front + [b];
    }
  }

  lemma {:induction false} LastByte(front: seq<byte>, b: byte)
    ensures MessageBits(front + [b]) == MessageBits(front) + BitsOf(b)
    ensures Crc(front + [b]) == Shifts(Mixed(Crc(front), b), 8)
  {
    hide BitsOf, Shifts;
    assert (front + [b])[..|front|] == front;
  }

  lemma {:induction false} ZeroBits()
    ensures Times([], Generator) == MessageBits([]) + BitsOf(Crc([]))
  {
  }

  // The leading bits of a product determine the quotient.
  lemma {:induction false} QuotientDetermined(p: seq<bool>, q: seq<bool>)
    requires |p| == |q| && Times(p, Generator)[..|p|] == Times(q, Generator)[..|q|]
    ensures p == q
  {
    if p != [] {
      var n := |p| - 1;
      LeadingBits(p);
      LeadingBits(q);
      hide Times;
      QuotientDetermined(p[..n], q[..n]);
      assert p == p[..n] + [p[n]] && q == q[..n] + [q[n]];
    }
  }

  lemma {:induction false} LeadingBits(q: seq<bool>)
    requires q != []
    ensures
      var n := |q| - 1;
      && Times(q, Generator)[..n] == Times(q[..n], Generator)[..n]
      && Times(q, Generator)[n] == (Times(q[..n], Generator)[n] != q[n])
  {
  }

  lemma {:induction false} BitsDetermine(a: byte, b: byte)
    requires BitsOf(a) == BitsOf(b)
    ensures a == b
  {
    hide BitAt, BitsOf;
    forall i | 0 <= i < 8 ensures BitAt(a, i) == BitAt(b, i) {
      assert BitsOf(a)[i] == BitsOf(b)[i];
    }
    SameBits(a, b);
  }

  lemma {:induction false} SameBits(a: byte, b: byte)
    requires forall i :: 0 <= i < 8 ==> BitAt(a, i) == BitAt(b, i)
    ensures a == b
  {
    assert BitAt(a, 0) == BitAt(b, 0) && BitAt(a, 1) == BitAt(b, 1) && BitAt(a, 2) == BitAt(b, 2);
    assert BitAt(a, 3) == BitAt(b, 3) && BitAt(a, 4) == BitAt(b, 4) && BitAt(a, 5) == BitAt(b, 5);
    assert BitAt(a, 6) == BitAt(b, 6) && BitAt(a, 7) == BitAt(b, 7);
  }

  /** The CRC of a message is the one byte that makes message and byte together a multiple of x^8 + x^2 + x + 1. */
  lemma {:induction false} CrcIsRemainder(m: seq<byte>, c: byte)
    ensures
      c == Crc(m) <==>
        Divisible(MessageBits(m) + BitsOf(c), [true, false, false, false, false, false, true, true, true])
  {
    var q := CrcDivides(m);
    hide BitsOf, Crc, Times, MessageBits;
    var bits := MessageBits(m);
    if Divisible(bits + BitsOf(c), Generator) {
      var p :| |p| + 8 == |bits + BitsOf(c)| && Times(p, Generator) == bits + BitsOf(c);
      assert (bits + BitsOf(c))[..|bits|] == bits == (bits + BitsOf(Crc(m)))[..|bits|];
      QuotientDetermined(p, q);
      assert BitsOf(c) == (bits + BitsOf(c))[|bits|..] && BitsOf(Crc(m)) == (bits + BitsOf(Crc(m)))[|bits|..];
      BitsDetermine(c, Crc(m));
    }
  }

  /** So a frame of the right version is accepted exactly when its 256 bits are such a multiple. */
  lemma {:induction false} ValidIffDivisible(b: seq<byte>)
    requires |b| == PACKET_BYTES
    ensures
      Valid(b) <==>
        Value(b[0]) == SYNC_VERSION
        && Divisible(MessageBits(b), [true, false, false, false, false, false, true, true, true])
  {
    hide BitsOf, Crc, Divisible, MessageBits, Decode, Value;
    CrcIsRemainder(b[..31], b[31]);
    LastByte(b[..31], b[31]);
    assert b == b[..31] + [b[31]];
  }
}
