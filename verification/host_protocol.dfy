// The host's packet codec: 32 bytes, big-endian fields, CRC-8 in the last byte.
module HostProtocol {
  import opened ProtocolDefs
  import opened Bits
  import opened Bytes
  import opened Crc8

  datatype Packet = Packet(
    sync: nat, kind: nat, symbol: nat, timestamp: nat, data: nat, quantity: nat, side: nat, sequence: nat, flags: nat,
    checksum: nat)
  {
    predicate Widths() {
      && sync < Pow2(8) && kind < Pow2(8) && symbol < Pow2(16) && timestamp < Pow2(64) && data < Pow2(64)
      && quantity < Pow2(32) && side < Pow2(8) && sequence < Pow2(32) && flags < Pow2(16) && checksum < Pow2(8)
    }
  }

  datatype ParseError = NoError | BadSync | BadChecksum

  datatype ParseResult = ParseResult(packet: Packet, error: ParseError)

  function High(value: nat): nat {
    value / 256
  }

  function Append(high: nat, low: byte): nat {
    high * 256 + Value(low)
  }

  /** The `n` low bytes of a value, most significant first. */
  function PutBytes(value: nat, n: nat): (r: seq<byte>)
    ensures |r| == n
    decreases n
  {
    if n == 0 then [] else PutBytes(High(value), n - 1) + [Low(value)]
  }

  function GetBytes(bytes: seq<byte>): nat {
    if bytes == [] then 0 else Append(GetBytes(bytes[..|bytes| - 1]), bytes[|bytes| - 1])
  }

  lemma {:induction false} OneByteMore(n: nat)
    requires n > 0
    ensures Pow2(8 * n) == Pow2(8 * (n - 1)) * 256
  {
    Pow2Add(8 * (n - 1), 8);
    Pow2Values();
    assert 8 * (n - 1) + 8 == 8 * n;
  }

  lemma {:induction false} AppendSplits(value: nat, p: nat)
    requires value < p * 256
    ensures Append(High(value), Low(value)) == value && High(value) < p
  {
    LowIsRemainder(value);
    hide Low, Value;
    MulBound(High(value), p);
  }

  lemma {:induction false} MulBound(a: nat, p: nat)
    requires a * 256 < p * 256
    ensures a < p
  {
  }

  lemma {:induction false} SplitAppends(high: nat, low: byte, p: nat)
    requires high < p
    ensures High(Append(high, low)) == high && Low(Append(high, low)) == low && Append(high, low) < p * 256
  {
    var value := Append(high, low);
    ValueDetermines(low, Low(value));
    LowIsRemainder(value);
    hide Low, Value;
    ModUnique(value, high, Value(low), 256);
  }

  /** Writing a value that fits and reading it back. */
  lemma {:induction false} GetPut(value: nat, n: nat)
    requires value < Pow2(8 * n)
    ensures GetBytes(PutBytes(value, n)) == value
    decreases n
  {
    if n == 0 {
      assert Pow2(0) == 1;
    } else {
      OneByteMore(n);
      hide Pow2, High, Low, Append;
      AppendSplits(value, Pow2(8 * (n - 1)));
      GetPut(High(value), n - 1);
      GetSnoc(PutBytes(High(value), n - 1), Low(value));
    }
  }

  lemma {:induction false} GetSnoc(bytes: seq<byte>, b: byte)
    ensures GetBytes(bytes + [b]) == Append(GetBytes(bytes), b)
  {
    assert (bytes + [b])[..|bytes|] == bytes;
  }

  /** Reading bytes and writing them back. */
  lemma {:induction false} PutGet(bytes: seq<byte>)
    ensures PutBytes(GetBytes(bytes), |bytes|) == bytes
    ensures GetBytes(bytes) < Pow2(8 * |bytes|)
  {
    hide *;
    if bytes == [] {
      PutGetNone();
    } else {
      var front, b := bytes[..|bytes| - 1], bytes[|bytes| - 1];
      PutGet(front);
      PutGetSnoc(front, b);
      assert bytes == front + [b];
    }
  }

  lemma {:induction false} PutGetNone()
    ensures PutBytes(GetBytes([]), 0) == [] && GetBytes([]) < Pow2(0)
  {
  }

  lemma {:induction false} PutGetSnoc(bytes: seq<byte>, b: byte)
    requires PutBytes(GetBytes(bytes), |bytes|) == bytes && GetBytes(bytes) < Pow2(8 * |bytes|)
    ensures PutBytes(GetBytes(bytes + [b]), |bytes| + 1) == bytes + [b]
    ensures GetBytes(bytes + [b]) < Pow2(8 * (|bytes| + 1))
  {
    hide Pow2, High, Low, Append, GetBytes;
    OneByteMore(|bytes| + 1);
    GetSnoc(bytes, b);
    SplitAppends(GetBytes(bytes), b, Pow2(8 * |bytes|));
  }

  // ---- Packets ----

  /** The fields before the checksum, in order: 31 bytes. */
  function Body(p: Packet): (r: seq<byte>)
    ensures |r| == 31
  {
    PutBytes(p.sync, 1) + PutBytes(p.kind, 1) + PutBytes(p.symbol, 2) + PutBytes(p.timestamp, 8) + PutBytes(p.data, 8)
    + PutBytes(p.quantity, 4) + PutBytes(p.side, 1) + PutBytes(p.sequence, 4) + PutBytes(p.flags, 2)
  }

  function Serialized(p: Packet): (r: seq<byte>)
    ensures |r| == PACKET_BYTES
  {
    Body(p) + [Crc(Body(p))]
  }

  function Decode(b: seq<byte>): Packet
    requires |b| == PACKET_BYTES
  {
    Packet(GetBytes(b[0..1]), GetBytes(b[1..2]), GetBytes(b[2..4]), GetBytes(b[4..12]), GetBytes(b[12..20]),
      GetBytes(b[20..24]),
           GetBytes(b[24..25]), GetBytes(b[25..29]), GetBytes(b[29..31]), GetBytes(b[31..32]))
  }

  function Parse(b: seq<byte>): ParseResult
    requires |b| == PACKET_BYTES
  {
    ParseResult(Decode(b), if Value(b[0]) != SYNC_VERSION then BadSync else if b[31] != Crc(b[..31]) then BadChecksum
      else NoError)
  }

  predicate Valid(b: seq<byte>) {
    |b| == PACKET_BYTES && Parse(b).error == NoError
  }

  lemma {:induction false} BodyFields(p: Packet)
    ensures
      var b := Serialized(p);
      && b[0..1] == PutBytes(p.sync, 1) && b[1..2] == PutBytes(p.kind, 1) && b[2..4] == PutBytes(p.symbol, 2)
      && b[4..12] == PutBytes(p.timestamp, 8) && b[12..20] == PutBytes(p.data, 8)
      && b[20..24] == PutBytes(p.quantity, 4)
      && b[24..25] == PutBytes(p.side, 1) && b[25..29] == PutBytes(p.sequence, 4) && b[29..31] == PutBytes(p.flags, 2)
      && b[31..32] == [Crc(Body(p))] && b[..31] == Body(p)
  {
    hide PutBytes, Crc;
  }

  lemma {:induction false} OneByte(b: byte)
    ensures GetBytes([b]) == Value(b) && [b][..0] == []
  {
  }

  lemma {:induction false} PutOne(value: nat)
    requires value < Pow2(8)
    ensures Value(PutBytes(value, 1)[0]) == value
  {
    GetPut(value, 1);
    OneByte(PutBytes(value, 1)[0]);
    assert PutBytes(value, 1) == [PutBytes(value, 1)[0]];
  }

  /**
    Parsing what was serialised gives the packet back with its checksum filled in; only a foreign version is
    turned away.
   */
  lemma {:induction false} SerializeThenParse(p: Packet)
    requires p.Widths()
    ensures
      var r := Parse(Serialized(p));
      && r.packet == p.(checksum := Value(Crc(Body(p))))
      && r.error == (if p.sync == SYNC_VERSION then NoError else BadSync)
  {
    hide PutBytes, GetBytes, Crc, Pow2, Body;
    BodyFields(p);
    GetPut(p.sync, 1);
    GetPut(p.kind, 1);
    GetPut(p.symbol, 2);
    GetPut(p.timestamp, 8);
    GetPut(p.data, 8);
    GetPut(p.quantity, 4);
    GetPut(p.side, 1);
    GetPut(p.sequence, 4);
    GetPut(p.flags, 2);
    OneByte(Crc(Body(p)));
    PutOne(p.sync);
    assert Serialized(p)[0] == Serialized(p)[0..1][0];
    assert Serialized(p)[31] == Serialized(p)[31..32][0];
  }

  // The ten fields of 32 bytes, written back.
  lemma {:induction false} DecodeThenBody(b: seq<byte>)
    requires |b| == PACKET_BYTES
    ensures Decode(b).Widths() && Body(Decode(b)) == b[..31]
  {
    hide PutBytes, GetBytes, Pow2;
    PutGet(b[0..1]);
    PutGet(b[1..2]);
    PutGet(b[2..4]);
    PutGet(b[4..12]);
    PutGet(b[12..20]);
    PutGet(b[20..24]);
    PutGet(b[24..25]);
    PutGet(b[25..29]);
    PutGet(b[29..31]);
    PutGet(b[31..32]);
    assert b[..31] ==
      b[0..1] + b[1..2] + b[2..4] + b[4..12] + b[12..20] + b[20..24] + b[24..25] + b[25..29] + b[29..31];
  }

  /** Every packet that parses is the serialisation of what it parses to: the two are inverse on valid packets. */
  lemma {:induction false} ParseThenSerialize(b: seq<byte>)
    requires Valid(b)
    ensures Serialized(Parse(b).packet) == b && Parse(b).packet.Widths()
  {
    hide Body, Crc, Decode;
    DecodeThenBody(b);
    assert b == b[..31] + [b[31]];
  }

  // ---- Corruption ----

  /** A valid packet corrupted anywhere within one byte is rejected. */
  lemma {:induction false} OneByteCorruptionRejected(b: seq<byte>, c: seq<byte>, k: nat)
    requires Valid(b) && DifferOnlyAt(b, c, k)
    ensures !Valid(c)
  {
    hide Crc, Decode;
    if k < 31 {
      assert DifferOnlyAt(b[..31], c[..31], k);
      OneByteChangesCrc(b[..31], c[..31], k);
    } else {
      assert b[..31] == c[..31];
    }
  }

  lemma {:induction false} ValidIsEven(b: seq<byte>)
    requires Valid(b)
    ensures !Odd(TotalOnes(b))
  {
    hide Crc, Odd, Ones, Decode;
    CrcParity(b[..31]);
    LastOnes(b);
  }

  /** A valid packet with an odd number of bits flipped, anywhere, is rejected. */
  lemma {:induction false} OddFlipsRejected(b: seq<byte>, c: seq<byte>)
    requires Valid(b) && |c| == PACKET_BYTES && Odd(Flipped(b, c))
    ensures !Valid(c)
  {
    hide Parse, Odd, Flipped, TotalOnes;
    FlippedParity(b, c);
    ValidIsEven(b);
    if Valid(c) { ValidIsEven(c); }
  }

  // ---- Status responses ----

  /** The status codes the host's enumeration has. */
  predicate HostStatus(status: nat) {
    status == STATUS_OK || STATUS_BAD_SYNC <= status <= STATUS_BAD_SIDE
  }

  function HostFlags(status: nat): nat {
    if status == STATUS_OK then 0x0001
    else if status == STATUS_BAD_SYNC then 0x0002
    else if status == STATUS_BAD_CHECKSUM then 0x0004
    else if status == STATUS_BAD_TYPE then 0x0008
    else if status == STATUS_BAD_SYMBOL then 0x0010
    else if status == STATUS_DUPLICATE_SEQ then 0x0020
    else if status == STATUS_STALE_SEQ then 0x0040
    else if status == STATUS_BAD_SIDE then 0x0080
    else 0x0000
  }

  function StatusResponse(request: Packet, status: nat): Packet {
    request.(sync := SYNC_VERSION, kind := MSG_STATUS, side := status, flags := HostFlags(status), checksum := 0)
  }

  // ---- The loops ----

  // Byte `i` of a field is the value shifted right past the bytes after it.
  lemma {:induction false} PutByteAt(value: nat, n: nat, i: nat)
    requires i < n
    ensures Shifted(value, n - 1 - i) >= 0 && PutBytes(value, n)[i] == Low(Shifted(value, n - 1 - i))
    decreases n
  {
    hide Low;
    if i < n - 1 { PutByteAt(High(value), n - 1, i); }
  }

  /** `value >> 8 * k`. */
  function Shifted(value: nat, k: nat): nat
    decreases k
  {
    if k == 0 then value else Shifted(High(value), k - 1)
  }

  lemma {:induction false} ShiftedIsDivision(value: nat, k: nat)
    ensures Shifted(value, k) == value / Pow2(8 * k)
    decreases k
  {
    if k == 0 {
      assert Pow2(0) == 1;
    } else {
      ShiftedIsDivision(High(value), k - 1);
      OneByteMore(k);
      hide Pow2;
      DivDiv(value, 256, Pow2(8 * (k - 1)));
    }
  }

  lemma {:induction false} DivDiv(x: nat, a: nat, b: nat)
    requires a > 0 && b > 0
    ensures b * a > 0 && x / a / b == x / (b * a)
  {
    var q := x / a;
    var p, s, r := q / b, q % b, x % a;
    DivMod(x, a);
    DivNonNegative(x, a);
    DivMod(q, b);
    Distribute(p * b, s, a);
    MulAssoc(p, b, a);
    MulAtLeast(b - 1, s, a);
    Distribute(b, 1, a);
    MulAtLeast(s, 0, a);
    MulAtLeast(b, 1, a);
    ModUnique(x, p, s * a + r, b * a);
  }

  /** Stores a big-endian field in place. */
  method PutField(bytes: array<byte>, offset: nat, value: nat, n: nat)
    requires offset + n <= bytes.Length
    modifies bytes
    ensures bytes[..] == old(bytes[..offset]) + PutBytes(value, n) + old(bytes[offset + n..])
    ensures bytes[..offset + n] == old(bytes[..offset]) + PutBytes(value, n)
  {
    hide PutBytes, Pow2, Low;
    var stored := PutBytes(value, n);
    for i := 0 to n
      invariant bytes[..offset] == old(bytes[..offset])
      invariant bytes[offset..offset + i] == stored[..i]
      invariant bytes[offset + i..] == old(bytes[offset + i..])
    {
      ShiftedIsDivision(value, n - 1 - i);
      PutByteAt(value, n, i);
      DivNonNegative(value, Pow2(8 * (n - 1 - i)));
      ghost var before := bytes[..];
      bytes[offset + i] := Low(value / Pow2(8 * (n - 1 - i)));
      assert bytes[..] == before[offset + i := stored[i]];
      assert stored[..i + 1] == stored[..i] + [stored[i]];
    }
    assert bytes[..] == bytes[..offset] + bytes[offset..offset + n] + bytes[offset + n..];
  }

  /** Reads a big-endian field. */
  method GetField(bytes: array<byte>, offset: nat, n: nat) returns (value: nat)
    requires offset + n <= bytes.Length
    ensures value == GetBytes(bytes[offset..offset + n])
  {
    hide Append;
    value := 0;
    for i := 0 to n
      invariant value == GetBytes(bytes[offset..offset + i])
    {
      value := Append(value, bytes[offset + i]);
      GetSnoc(bytes[offset..offset + i], bytes[offset + i]);
      assert bytes[offset..offset + i + 1] == bytes[offset..offset + i] + [bytes[offset + i]];
    }
  }

  method PutNext(bytes: array<byte>, ghost before: seq<byte>, offset: nat, value: nat, n: nat)
    requires offset + n <= bytes.Length && bytes[..offset] == before
    modifies bytes
    ensures bytes[..offset + n] == before + PutBytes(value, n)
  {
    PutField(bytes, offset, value, n);
  }

  method PutFields(bytes: array<byte>, p: Packet)
    requires bytes.Length == PACKET_BYTES
    modifies bytes
    ensures bytes[..31] == Body(p)
  {
    hide PutBytes;
    ghost var f1 := PutBytes(p.sync, 1);
    ghost var f2 := f1 + PutBytes(p.kind, 1);
    ghost var f4 := f2 + PutBytes(p.symbol, 2);
    ghost var f12 := f4 + PutBytes(p.timestamp, 8);
    ghost var f20 := f12 + PutBytes(p.data, 8);
    ghost var f24 := f20 + PutBytes(p.quantity, 4);
    ghost var f25 := f24 + PutBytes(p.side, 1);
    ghost var f29 := f25 + PutBytes(p.sequence, 4);
    assert bytes[..0] == [] && [] + f1 == f1;
    PutNext(bytes, [], 0, p.sync, 1);
    PutNext(bytes, f1, 1, p.kind, 1);
    PutNext(bytes, f2, 2, p.symbol, 2);
    PutNext(bytes, f4, 4, p.timestamp, 8);
    PutNext(bytes, f12, 12, p.data, 8);
    PutNext(bytes, f20, 20, p.quantity, 4);
    PutNext(bytes, f24, 24, p.side, 1);
    PutNext(bytes, f25, 25, p.sequence, 4);
    PutNext(bytes, f29, 29, p.flags, 2);
  }

  method Serialize(p: Packet) returns (bytes: array<byte>)
    ensures fresh(bytes) && bytes[..] == Serialized(p)
  {
    hide Body, Crc;
    bytes := new byte[PACKET_BYTES](_ => 0);
    PutFields(bytes, p);
    var crc := BlockCrc(bytes, 31);
    bytes[31] := crc;
    assert bytes[..] == bytes[..31] + [bytes[31]];
  }
}
