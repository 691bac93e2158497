// CRC-8/ATM: polynomial 0x07, initial value 0, most significant bit first, no reflection, no final XOR.
module Crc8 {
  import opened Bytes

  function Shift(c: byte): byte {
    if c & 0x80 != 0 then (c << 1) ^ 0x07 else c << 1
  }

  function Shifts(c: byte, n: nat): byte {
    if n == 0 then c else Shift(Shifts(c, n - 1))
  }

  /** One message byte: XOR it in, then eight shifts. */
  function ByteStep(crc: byte, b: byte): byte {
    Shifts(crc ^ b, 8)
  }

  function CrcFrom(crc: byte, bytes: seq<byte>): byte {
    if bytes == [] then crc else ByteStep(CrcFrom(crc, bytes[..|bytes| - 1]), bytes[|bytes| - 1])
  }

  function Crc(bytes: seq<byte>): byte {
    CrcFrom(0, bytes)
  }

  lemma {:induction false} CrcSnoc(bytes: seq<byte>, b: byte)
    ensures Crc(bytes + [b]) == ByteStep(Crc(bytes), b)
  {
    assert (bytes + [b])[..|bytes|] == bytes;
  }

  /** The host's block computation over the first `n` bytes of a packet. */
  method BlockCrc(bytes: array<byte>, n: nat) returns (crc: byte)
    requires n <= bytes.Length
    ensures crc == Crc(bytes[..n])
  {
    hide Shift;
    crc := 0;
    for i := 0 to n
      invariant crc == Crc(bytes[..i])
    {
      ghost var start := crc ^ bytes[i];
      crc := crc ^ bytes[i];
      for bit := 0 to 8
        invariant crc == Shifts(start, bit)
      {
        crc := Shift(crc);
      }
      assert bytes[..i + 1] == bytes[..i] + [bytes[i]];
      CrcSnoc(bytes[..i], bytes[i]);
    }
  }

  // ---- The byte-stream engine ----

  datatype Stream = Stream(crc: byte, result: byte, done: bool)

  datatype StreamIn = StreamIn(start: bool, valid: bool, last: bool, data: byte)

  function StreamTick(s: Stream, i: StreamIn): Stream {
    var next := ByteStep(if i.start then 0 else s.crc, i.data);
    if i.valid then Stream(next, if i.last then next else s.result, i.last)
    else Stream(if i.start then 0 else s.crc, s.result, false)
  }

  class Crc8Engine {
    var crcReg: byte
    var result: byte
    var done: bool

    ghost function View(): Stream
      reads this
    {
      Stream(crcReg, result, done)
    }

    constructor ()
      ensures View() == Stream(0, 0, false)
    {
      crcReg, result, done := 0, 0, false;
    }

    method Tick(i: StreamIn)
      modifies this
      ensures View() == StreamTick(old(View()), i)
    {
      hide ByteStep;
      var next := ByteStep(if i.start then 0 else crcReg, i.data);
      done := false;
      if i.start && !i.valid { crcReg := 0; }
      if i.valid {
        crcReg := next;
        if i.last { result, done := next, true; }
      }
    }
  }

  function RunStream(s: Stream, ins: seq<StreamIn>): Stream {
    if ins == [] then s else StreamTick(RunStream(s, ins[..|ins| - 1]), ins[|ins| - 1])
  }

  /** The bytes a series of edges has fed in. */
  function Fed(ins: seq<StreamIn>): seq<byte> {
    if ins == [] then []
    else Fed(ins[..|ins| - 1]) + if ins[|ins| - 1].valid then [ins[|ins| - 1].data] else []
  }

  /** A message opens with `start`, on or before its first byte, and idles at will. */
  predicate Opens(ins: seq<StreamIn>) {
    ins != [] && ins[0].start && forall k :: 1 <= k < |ins| ==> !ins[k].start
  }

  lemma {:induction false} RegisterHoldsCrc(s: Stream, ins: seq<StreamIn>)
    requires Opens(ins)
    ensures RunStream(s, ins).crc == Crc(Fed(ins))
  {
    hide ByteStep;
    var last := |ins| - 1;
    var fed := Fed(ins[..last]);
    if last > 0 { RegisterHoldsCrc(s, ins[..last]); }
    if ins[last].valid {
      CrcSnoc(fed, ins[last].data);
      assert last == 0 ==> Fed(ins) == [] + [ins[last].data];
    } else {
      assert Fed(ins) == fed;
    }
  }

  /**
    Whatever a message's length and however it is paced, one edge after its last byte the engine reports the
    block CRC of the bytes fed since `start`.
   */
  lemma {:induction false} StreamIsBlock(s: Stream, ins: seq<StreamIn>)
    requires Opens(ins) && ins[|ins| - 1].valid && ins[|ins| - 1].last
    ensures
      var r := RunStream(s, ins);
      r.done && r.result == Crc(Fed(ins)) && r.crc == r.result
  {
    hide ByteStep;
    RegisterHoldsCrc(s, ins);
  }

  // ---- Error detection ----

  lemma {:induction false} ShiftInjective(a: byte, b: byte)
    requires Shift(a) == Shift(b)
    ensures a == b
  {
  }

  lemma {:induction false} ShiftsInjective(a: byte, b: byte, n: nat)
    requires Shifts(a, n) == Shifts(b, n)
    ensures a == b
  {
    hide Shift;
    if n > 0 {
      ShiftInjective(Shifts(a, n - 1), Shifts(b, n - 1));
      ShiftsInjective(a, b, n - 1);
    }
  }

  lemma {:induction false} XorCancels(c: byte, a: byte, b: byte)
    ensures (c ^ a == c ^ b) == (a == b) && (a ^ c == b ^ c) == (a == b)
  {
  }

  /** The byte step loses nothing: it is injective in the register and in the byte. */
  lemma {:induction false} StepInjective(c: byte, d: byte, a: byte, b: byte)
    ensures ByteStep(c, a) == ByteStep(c, b) ==> a == b
    ensures ByteStep(c, a) == ByteStep(d, a) ==> c == d
  {
    hide Shifts;
    if ByteStep(c, a) == ByteStep(c, b) {
      ShiftsInjective(c ^ a, c ^ b, 8);
      XorCancels(c, a, b);
    }
    if ByteStep(c, a) == ByteStep(d, a) {
      ShiftsInjective(c ^ a, d ^ a, 8);
      XorCancels(a, c, d);
    }
  }

  predicate DifferOnlyAt(p: seq<byte>, q: seq<byte>, k: nat) {
    |p| == |q| && k < |p| && p[k] != q[k] && forall i :: 0 <= i < |p| && i != k ==> p[i] == q[i]
  }

  /** Messages that differ in exactly one byte have different CRCs. */
  lemma {:induction false} OneByteChangesCrc(p: seq<byte>, q: seq<byte>, k: nat)
    requires DifferOnlyAt(p, q, k)
    ensures Crc(p) != Crc(q)
  {
    hide ByteStep;
    var last := |p| - 1;
    StepInjective(Crc(p[..last]), Crc(q[..last]), p[last], q[last]);
    if k < last {
      OneByteChangesCrc(p[..last], q[..last], k);
    } else {
      assert p[..last] == q[..last];
    }
  }

  // ---- Parity ----

  function Digit(x: byte, mask: byte): nat {
    if x & mask != 0 then 1 else 0
  }

  /** The number of set bits. */
  function Ones(x: byte): nat {
    Digit(x, 1) + Digit(x, 2) + Digit(x, 4) + Digit(x, 8) + Digit(x, 16) + Digit(x, 32) + Digit(x, 64) + Digit(x, 128)
  }

  function TotalOnes(bytes: seq<byte>): nat {
    if bytes == [] then 0 else TotalOnes(bytes[..|bytes| - 1]) + Ones(bytes[|bytes| - 1])
  }

  function Odd(n: nat): bool {
    n % 2 == 1
  }

  lemma {:induction false} OddSum(a: nat, b: nat)
    ensures Odd(a + b) == (Odd(a) != Odd(b))
  {
  }

  lemma {:induction false} DigitXor(x: byte, y: byte, mask: byte)
    requires mask in {1, 2, 4, 8, 16, 32, 64, 128}
    ensures Odd(Digit(x ^ y, mask)) == (Odd(Digit(x, mask)) != Odd(Digit(y, mask)))
  {
  }

  lemma {:induction false} OnesParity(x: byte)
    ensures Odd(Ones(x)) ==
      (((((((Odd(Digit(x, 1)) != Odd(Digit(x, 2))) != Odd(Digit(x, 4))) != Odd(Digit(x, 8))) !=
      Odd(Digit(x, 16))) != Odd(Digit(x, 32))) != Odd(Digit(x, 64))) != Odd(Digit(x, 128)))
  {
    hide Digit, Odd;
    var s2 := Digit(x, 1) + Digit(x, 2);
    var s3 := s2 + Digit(x, 4);
    var s4 := s3 + Digit(x, 8);
    var s5 := s4 + Digit(x, 16);
    var s6 := s5 + Digit(x, 32);
    var s7 := s6 + Digit(x, 64);
    OddSum(Digit(x, 1), Digit(x, 2));
    OddSum(s2, Digit(x, 4));
    OddSum(s3, Digit(x, 8));
    OddSum(s4, Digit(x, 16));
    OddSum(s5, Digit(x, 32));
    OddSum(s6, Digit(x, 64));
    OddSum(s7, Digit(x, 128));
  }

  lemma {:induction false} OnesXor(x: byte, y: byte)
    ensures Odd(Ones(x ^ y)) == (Odd(Ones(x)) != Odd(Ones(y)))
  {
    hide Ones, Odd, Digit;
    OnesParity(x);
    OnesParity(y);
    OnesParity(x ^ y);
    DigitXor(x, y, 1);
    DigitXor(x, y, 2);
    DigitXor(x, y, 4);
    DigitXor(x, y, 8);
    DigitXor(x, y, 16);
    DigitXor(x, y, 32);
    DigitXor(x, y, 64);
    DigitXor(x, y, 128);
  }

  // The polynomial has an even number of terms, so a shift keeps the parity.
  lemma {:induction false} ShiftParity(c: byte)
    ensures Odd(Ones(Shift(c))) == Odd(Ones(c))
  {
  }

  lemma {:induction false} ShiftsParity(c: byte, n: nat)
    ensures Odd(Ones(Shifts(c, n))) == Odd(Ones(c))
  {
    hide Shift, Ones, Odd;
    if n > 0 {
      ShiftsParity(c, n - 1);
      ShiftParity(Shifts(c, n - 1));
    }
  }

  lemma {:induction false} StepParity(crc: byte, b: byte)
    ensures Odd(Ones(ByteStep(crc, b))) == (Odd(Ones(crc)) != Odd(Ones(b)))
  {
    hide Shifts, Ones, Odd;
    ShiftsParity(crc ^ b, 8);
    OnesXor(crc, b);
  }

  lemma {:induction false} NothingIsEven()
    ensures Ones(0) == 0 && !Odd(0)
  {
  }

  /** The parity of the CRC is the parity of the message. */
  lemma {:induction false} CrcParity(bytes: seq<byte>)
    ensures Odd(Ones(Crc(bytes))) == Odd(TotalOnes(bytes))
  {
    hide ByteStep, Ones, Odd;
    NothingIsEven();
    if bytes != [] {
      var last := |bytes| - 1;
      CrcParity(bytes[..last]);
      StepParity(Crc(bytes[..last]), bytes[last]);
      OddSum(TotalOnes(bytes[..last]), Ones(bytes[last]));
    }
  }

  /** The number of bits in which two messages differ. */
  function Flipped(p: seq<byte>, q: seq<byte>): nat
    requires |p| == |q|
  {
    if p == [] then 0 else Flipped(p[..|p| - 1], q[..|q| - 1]) + Ones(p[|p| - 1] ^ q[|q| - 1])
  }

  lemma {:induction false} OddSumXor(n: nat, x: byte, y: byte)
    ensures Odd(n + Ones(x ^ y)) == (Odd(n) != (Odd(Ones(x)) != Odd(Ones(y))))
  {
    hide *;
    OnesXor(x, y);
    OddSum(n, Ones(x ^ y));
  }

  lemma {:induction false} LastFlip(p: seq<byte>, q: seq<byte>)
    requires |p| == |q| > 0
    ensures
      var last := |p| - 1;
      Odd(Flipped(p, q)) == (Odd(Flipped(p[..last], q[..last])) != (Odd(Ones(p[last])) != Odd(Ones(q[last]))))
  {
    hide Ones, Odd;
    var last := |p| - 1;
    OddSumXor(Flipped(p[..last], q[..last]), p[last], q[last]);
  }

  lemma {:induction false} LastOnes(p: seq<byte>)
    requires |p| > 0
    ensures Odd(TotalOnes(p)) == (Odd(TotalOnes(p[..|p| - 1])) != Odd(Ones(p[|p| - 1])))
  {
    assert TotalOnes(p) == TotalOnes(p[..|p| - 1]) + Ones(p[|p| - 1]);
    hide *;
    OddSum(TotalOnes(p[..|p| - 1]), Ones(p[|p| - 1]));
  }

  lemma {:induction false} FlippedParity(p: seq<byte>, q: seq<byte>)
    requires |p| == |q|
    ensures Odd(Flipped(p, q)) == (Odd(TotalOnes(p)) != Odd(TotalOnes(q)))
  {
    if p == [] {
      NothingIsEven();
    } else {
      hide Ones, Odd, Flipped, TotalOnes;
      FlippedParity(p[..|p| - 1], q[..|q| - 1]);
      LastFlip(p, q);
      LastOnes(p);
      LastOnes(q);
    }
  }
}
