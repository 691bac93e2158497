// Records and integer arithmetic shared by the reference model and the hardware model.
module MarketTypes {
  import opened ProtocolDefs
  import opened Bits

  /** Scaling parameters; `bps` is BPS_SCALE * BPS_OUTPUT_SCALE. */
  datatype Scales = Scales(bps: nat, fracBits: nat)

  datatype Event = Event(kind: nat, symbol: nat, price: nat, quantity: nat, side: nat, sequence: nat)
  {
    predicate Widths() {
      kind < Pow2(8) && symbol < Pow2(16) && price < Pow2(64) && quantity < Pow2(32) && side < Pow2(8)
        && sequence < Pow2(32)
    }
  }

  /** The un-normalised part of a feature record. */
  datatype Raw = Raw(
    spread: nat, spreadValid: bool, midpoint: nat, midpointValid: bool, momentum: int, momentumValid: bool,
    imbalanceNumerator: int, imbalanceDenominator: nat, imbalanceValid: bool,
    sumPriceQuantity: nat, sumQuantity: nat, vwapValid: bool)

  /** The normalised part: VWAP, Q1.15 imbalance and basis points scaled by 100. */
  datatype Normalized = Normalized(
    vwap: nat, vwapValid: bool, imbalance: int, imbalanceValid: bool, spreadBps: int, spreadBpsValid: bool,
    momentumBps: int, momentumBpsValid: bool, delta: int, deltaValid: bool, deltaBps: int, deltaBpsValid: bool)

  const NoResult := Normalized(0, false, 0, false, 0, false, 0, false, 0, false, 0, false)

  /** A symbol's top of book and sequence register. */
  datatype Book = Book(
    bidPrice: nat, bidQuantity: nat, askPrice: nat, askQuantity: nat,
    sequence: nat, sequenceValid: bool, bidValid: bool, askValid: bool)
  {
    predicate QuotesValid() {
      bidValid && askValid && askPrice >= bidPrice
    }

    predicate Widths() {
      bidPrice < Pow2(64) && askPrice < Pow2(64) && bidQuantity < Pow2(32) && askQuantity < Pow2(32)
        && sequence < Pow2(32)
    }
  }

  const EmptyBook := Book(0, 0, 0, 0, 0, false, false, false)

  datatype Feature = Feature(symbol: nat, sequence: nat, book: Book, rollingVolume: nat, raw: Raw, norm: Normalized)

  datatype Outcome =
    | DispatchError(reason: nat, symbol: nat, sequence: nat)
    | Rejected(reason: nat, symbol: nat, sequence: nat)
    | Produced(feature: Feature)

  datatype Windows = Windows(symbols: nat, trade: nat, momentum: nat, vwap: nat, scales: Scales)
  {
    predicate Valid() {
      symbols >= 1 && trade >= 1 && momentum >= 1 && vwap >= 1
    }
  }

  /** A quote replaces one side of the book; every accepted event advances the sequence. */
  function UpdateBook(b: Book, e: Event): Book {
    var t := b.(sequence := e.sequence, sequenceValid := true);
    if e.kind != MSG_MARKET_QUOTE then t
    else if e.side == 0 then t.(bidPrice := e.price, bidQuantity := e.quantity, bidValid := true)
    else t.(askPrice := e.price, askQuantity := e.quantity, askValid := true)
  }

  function Midpoint(b: Book): nat {
    (b.bidPrice + b.askPrice) / 2
  }

  /** The raw features of a book, a momentum reference and the two VWAP sums. */
  function RawOf(b: Book, warm: bool, reference: nat, sumPriceQuantity: nat, sumQuantity: nat): Raw {
    var ok := b.QuotesValid();
    Raw(
      if ok then b.askPrice - b.bidPrice else 0, ok,
      if ok then Midpoint(b) else 0, ok,
      if ok && warm then Midpoint(b) - reference else 0, ok && warm,
      if ok then b.bidQuantity - b.askQuantity else 0, if ok then b.bidQuantity + b.askQuantity else 0, ok,
      sumPriceQuantity, sumQuantity, sumQuantity != 0)
  }

  function Abs(x: int): nat {
    if x < 0 then -x else x
  }

  /** A magnitude with its sign put back. */
  function WithSign(magnitude: int, negative: bool): int {
    if negative then -magnitude else magnitude
  }

  /** Signed division truncated toward zero. */
  function TruncDiv(n: int, d: int): int
    requires d != 0
  {
    var magnitude := Abs(n) / Abs(d);
    if (n < 0) != (d < 0) then -magnitude else magnitude
  }

  /** One more than the largest signed value of `width` bits. */
  function SignedLimit(width: nat): int
    requires width > 0
  {
    Pow2(width - 1)
  }

  function Saturate(value: int, width: nat): int
    requires width > 0
  {
    var limit := SignedLimit(width);
    if value < -limit then -limit else if value > limit - 1 then limit - 1 else value
  }

  /** Truncation: the quotient times the divisor is the multiple nearest `n` on the side of zero. */
  lemma {:induction false} TruncDivTowardZero(n: int, d: int)
    requires d != 0
    ensures
      var q := TruncDiv(n, d);
      && Abs(n - q * d) < Abs(d) && Abs(q * d) <= Abs(n)
      && (n >= 0 ==> q * d >= 0) && (n <= 0 ==> q * d <= 0)
  {
    var m, e := Abs(n) / Abs(d), Abs(d);
    DivMod(Abs(n), e);
    DivNonNegative(Abs(n), e);
    MulAtLeast(m, 0, e);
    NegMul(m, e);
    assert TruncDiv(n, d) * d == if n < 0 then -(m * e) else m * e;
  }

  /** Saturation clamps into the signed range and leaves every representable value alone. */
  lemma {:induction false} SaturateClamps(value: int, width: nat)
    requires width > 0
    ensures -SignedLimit(width) <= Saturate(value, width) < SignedLimit(width)
    ensures -SignedLimit(width) <= value < SignedLimit(width) ==> Saturate(value, width) == value
    ensures value >= SignedLimit(width) ==> Saturate(value, width) == SignedLimit(width) - 1
    ensures value < -SignedLimit(width) ==> Saturate(value, width) == -SignedLimit(width)
  {
  }

  function Quotient(n: nat, d: nat): nat
    requires d > 0
  {
    DivNonNegative(n, d);
    n / d
  }

  function VwapOf(raw: Raw): nat {
    if raw.vwapValid && raw.sumQuantity != 0 then Quotient(raw.sumPriceQuantity, raw.sumQuantity) else 0
  }

  /** The normalised features of a raw record, as the reference model defines them. */
  function Normalize(c: Scales, raw: Raw, reference: nat): Normalized {
    NormalizeWith(c, raw, reference, VwapOf(raw))
  }

  /** The same, from whatever the VWAP register holds. */
  function NormalizeWith(c: Scales, raw: Raw, reference: nat, vwap: nat): Normalized {
    var vwapValid := raw.vwapValid && raw.sumQuantity != 0;
    var imbalanceValid := raw.imbalanceValid && raw.imbalanceDenominator != 0;
    var spreadBpsValid := raw.spreadValid && raw.midpointValid && raw.midpoint != 0;
    var momentumBpsValid := raw.momentumValid && reference != 0;
    var deltaValid := raw.midpointValid && vwapValid;
    var delta := if deltaValid then raw.midpoint - vwap else 0;
    var deltaBpsValid := deltaValid && vwap != 0;
    Normalized(
      vwap, vwapValid,
      if imbalanceValid
        then Saturate(TruncDiv(raw.imbalanceNumerator * Pow2(c.fracBits), raw.imbalanceDenominator), 16) else 0,
      imbalanceValid,
      if spreadBpsValid then Saturate(raw.spread * c.bps / raw.midpoint, 32) else 0,
      spreadBpsValid,
      if momentumBpsValid then Saturate(TruncDiv(raw.momentum * c.bps, reference), 32) else 0,
      momentumBpsValid,
      delta, deltaValid,
      if deltaBpsValid then Saturate(TruncDiv(delta * c.bps, vwap), 32) else 0,
      deltaBpsValid)
  }
}
