// The sequential normaliser: five divisions scheduled on one shared divider.
module Normalizer {
  import opened Bits
  import opened MarketTypes
  import opened Divider

  /** Build-time parameters of the normaliser. */
  datatype NormParams = NormParams(sumWidth: nat, quantityWidth: nat, scales: Scales)
  {
    /** Width of the shared divider's numerator. */
    function DivWidth(): nat {
      var a := if sumWidth > 33 + scales.fracBits then sumWidth else 33 + scales.fracBits;
      if a > 65 then a else 65
    }

    /** Scaled 65-bit magnitudes fit the divider, as they do for the default scale of 1,000,000. */
    ghost predicate Valid() {
      quantityWidth <= 64 && Pow2(64) * scales.bps < Pow2(DivWidth())
    }
  }

  datatype Phase = NIdle | NStart | NScale | NDivide | NWait

  const OP_VWAP := 0
  const OP_IMBALANCE := 1
  const OP_SPREAD := 2
  const OP_MOMENTUM := 3
  const OP_VWAP_DELTA := 4

  /** The registers the operation selector decodes. */
  datatype Operands = Operands(op: nat, raw: Raw, reference: nat, vwapReady: bool, vwapReg: nat)

  /** The operand registers between the selector and the divider. */
  datatype Prepared = Prepared(valid: bool, negative: bool, scaleInput: nat, numerator: nat, denominator: nat)

  datatype Norm = Norm(phase: Phase, sel: Operands, prep: Prepared, done: bool, out: Normalized, div: Div)

  datatype NormIn = NormIn(start: bool, raw: Raw, reference: nat)

  const NoRaw := Raw(0, false, 0, false, 0, false, 0, 0, false, 0, 0, false)

  const ResetNorm :=
    Norm(NIdle, Operands(OP_VWAP, NoRaw, 0, false, 0), Prepared(false, false, 0, 0, 0), false, NoResult, ResetDiv)

  /** Two's-complement magnitude of a signed register of `width` bits. */
  function Magnitude(x: int, width: nat): nat {
    Wrap(if x < 0 then -x else x, width)
  }

  /** The fabric multiplier: 1,000,000 spelt as shifts and adds, a plain product for any other scale. */
  function ScaleMagnitude(m: nat, scale: nat, width: nat): nat {
    if scale == 1000000 then
      Wrap(m * 64 + m * 512 + m * 16384 + m * 65536 + m * 131072 + m * 262144 + m * 524288, width)
    else
      Wrap(m * scale, width)
  }

  function SaturateImbalance(magnitude: nat, negative: bool): int {
    if negative then
      if magnitude >= 32768 then -32768 else -Signed(magnitude, 16)
    else if magnitude > 32767 then 32767 else Signed(magnitude, 16)
  }

  function SaturateBps(magnitude: nat, negative: bool): int {
    if negative then
      if magnitude >= 2147483648 then -2147483648 else -Signed(magnitude, 32)
    else if magnitude > 2147483647 then 2147483647 else Signed(magnitude, 32)
  }

  function OperationValid(s: Operands): bool {
    if s.op == OP_VWAP then s.raw.vwapValid && s.raw.sumQuantity != 0
    else if s.op == OP_IMBALANCE then s.raw.imbalanceValid && s.raw.imbalanceDenominator != 0
    else if s.op == OP_SPREAD then s.raw.spreadValid && s.raw.midpointValid && s.raw.midpoint != 0
    else if s.op == OP_MOMENTUM then s.raw.momentumValid && s.reference != 0
    else if s.op == OP_VWAP_DELTA then s.raw.midpointValid && s.vwapReady && s.vwapReg != 0
    else false
  }

  function OperationNegative(s: Operands): bool {
    if s.op == OP_IMBALANCE then s.raw.imbalanceNumerator < 0
    else if s.op == OP_MOMENTUM then s.raw.momentum < 0
    else if s.op == OP_VWAP_DELTA then s.raw.midpoint - s.vwapReg < 0
    else false
  }

  function OperationDenominator(s: Operands): nat {
    if s.op == OP_VWAP then s.raw.sumQuantity
    else if s.op == OP_IMBALANCE then s.raw.imbalanceDenominator
    else if s.op == OP_SPREAD then s.raw.midpoint
    else if s.op == OP_MOMENTUM then s.reference
    else if s.op == OP_VWAP_DELTA then s.vwapReg
    else 0
  }

  /** The magnitude handed to the scaler by the three basis-point operations. */
  function ScaleOperand(s: Operands): nat {
    if s.op == OP_SPREAD then s.raw.spread
    else if s.op == OP_MOMENTUM then Magnitude(s.raw.momentum, 65)
    else if s.op == OP_VWAP_DELTA then Magnitude(s.raw.midpoint - s.vwapReg, 65)
    else 0
  }

  /** The numerator handed straight to the divider by the other two. */
  function DirectNumerator(c: NormParams, s: Operands): nat {
    if s.op == OP_VWAP then s.raw.sumPriceQuantity
    else Magnitude(s.raw.imbalanceNumerator, 33) * Pow2(c.scales.fracBits)
  }

  predicate Direct(op: nat) {
    op == OP_VWAP || op == OP_IMBALANCE
  }

  /** The raw VWAP delta is recorded when its operation starts, even if its ratio is then skipped. */
  function RecordDelta(s: Operands, out: Normalized): Normalized {
    if s.op == OP_VWAP_DELTA && s.raw.midpointValid && s.vwapReady
    then out.(delta := s.raw.midpoint - s.vwapReg, deltaValid := true) else out
  }

  function Prepare(c: NormParams, s: Operands, p: Prepared): Prepared {
    var q := p.(valid := true, denominator := OperationDenominator(s), negative := OperationNegative(s));
    if Direct(s.op) then q.(numerator := DirectNumerator(c, s)) else q.(scaleInput := ScaleOperand(s))
  }

  /** Storing a finished quotient in the output the current operation owns. */
  function Store(op: nat, q: nat, ok: bool, negative: bool, out: Normalized): Normalized {
    if op == OP_VWAP then out.(vwap := q % Pow2(64), vwapValid := true)
    else if op == OP_IMBALANCE then out.(imbalance := SaturateImbalance(q, negative), imbalanceValid := ok)
    else if op == OP_SPREAD then out.(spreadBps := SaturateBps(q, false), spreadBpsValid := ok)
    else if op == OP_MOMENTUM then out.(momentumBps := SaturateBps(q, negative), momentumBpsValid := ok)
    else if op == OP_VWAP_DELTA then out.(deltaBps := SaturateBps(q, negative), deltaBpsValid := ok)
    else out
  }

  /** The dispatch edge of the current operation: prepare its operands, or skip it. */
  function Dispatch(c: NormParams, t: Norm): Norm {
    var u := t.(out := RecordDelta(t.sel, t.out));
    if OperationValid(t.sel)
      then u.(prep := Prepare(c, t.sel, t.prep), phase := if Direct(t.sel.op) then NDivide else NScale)
    else if t.sel.op == OP_VWAP_DELTA then u.(done := true, prep := t.prep.(valid := false), phase := NIdle)
    else u.(prep := t.prep.(valid := false), sel := t.sel.(op := t.sel.op + 1))
  }

  /** The edge that collects a finished quotient and moves to the next operation. */
  function Collect(t: Norm, quotient: nat, ok: bool): Norm {
    var sel := if t.sel.op == OP_VWAP then t.sel.(vwapReg := quotient % Pow2(64), vwapReady := true) else t.sel;
    var u := t.(out := Store(t.sel.op, quotient, ok, t.prep.negative, t.out), prep := t.prep.(valid := false));
    if t.sel.op == OP_VWAP_DELTA then u.(sel := sel, done := true, phase := NIdle)
    else u.(sel := sel.(op := t.sel.op + 1), phase := NStart)
  }

  /** What a busy normaliser does on an edge; its inputs are not looked at. */
  function BusyTick(c: NormParams, s: Norm): Norm {
    var t := s.(done := false,
                div := DivTick(s.div, c.DivWidth(), 64,
                               DivIn(s.phase.NDivide? && s.prep.valid, s.prep.numerator, s.prep.denominator)));
    match s.phase
    case NIdle => t
    case NStart => Dispatch(c, t)
    case NScale =>
      t.(prep := s.prep.(numerator := ScaleMagnitude(s.prep.scaleInput, c.scales.bps, c.DivWidth()), valid := true),
         phase := NDivide)
    case NDivide => t.(phase := NWait)
    case NWait => if s.div.done then Collect(t, s.div.quotient, !s.div.divideByZero) else t
  }

  /** One clock edge. */
  function NormTick(c: NormParams, s: Norm, i: NormIn): Norm {
    if s.phase.NIdle? && i.start then
      BusyTick(c, s).(sel := Operands(OP_VWAP, i.raw, i.reference, false, 0), prep := s.prep.(valid := false),
                      out := NoResult, phase := NStart)
    else BusyTick(c, s)
  }

  class FeatureNormalizer {
    const params: NormParams
    const divider: UnsignedDivider
    var phase: Phase
    var sel: Operands
    var prep: Prepared
    var done: bool
    var out: Normalized

    ghost predicate Valid() {
      divider.numeratorWidth == params.DivWidth() && divider.denominatorWidth == 64
    }

    ghost function View(): Norm
      reads this, divider
    {
      Norm(phase, sel, prep, done, out, divider.View())
    }

    constructor (params: NormParams)
      ensures Valid() && this.params == params && fresh(divider) && View() == ResetNorm
    {
      this.params := params;
      this.divider := new UnsignedDivider(params.DivWidth(), 64);
      phase, sel := NIdle, Operands(OP_VWAP, NoRaw, 0, false, 0);
      prep, done, out := Prepared(false, false, 0, 0, 0), false, NoResult;
    }

    method Tick(start: bool, rawIn: Raw, referenceIn: nat)
      requires Valid()
      modifies this, divider
      ensures View() == NormTick(params, old(View()), NormIn(start, rawIn, referenceIn))
    {
      hide ScaleMagnitude, DivTick, Dispatch, Collect;
      // Every register reads the divider's outputs as they were before the edge.
      var quotient, ready, ok := divider.quotient, divider.done, !divider.divideByZero;
      divider.Tick(phase.NDivide? && prep.valid, prep.numerator, prep.denominator);
      done := false;
      match phase
      case NIdle =>
        if start {
          sel, out := Operands(OP_VWAP, rawIn, referenceIn, false, 0), NoResult;
          prep, phase := prep.(valid := false), NStart;
        }
      case NStart =>
        StartOperation();
      case NScale =>
        prep := prep.(numerator := ScaleMagnitude(prep.scaleInput, params.scales.bps, params.DivWidth()),
          valid := true);
        phase := NDivide;
      case NDivide =>
        phase := NWait;
      case NWait =>
        if ready { FinishOperation(quotient, ok); }
    }

    method StartOperation()
      modifies this
      ensures View() == Dispatch(params, old(View()))
    {
      hide OperationValid, OperationNegative, OperationDenominator, ScaleOperand, DirectNumerator;
      if sel.op == OP_VWAP_DELTA && sel.raw.midpointValid && sel.vwapReady {
        out := out.(delta := sel.raw.midpoint - sel.vwapReg, deltaValid := true);
      }
      if OperationValid(sel) {
        prep := prep.(denominator := OperationDenominator(sel), negative := OperationNegative(sel), valid := true);
        if sel.op == OP_VWAP || sel.op == OP_IMBALANCE {
          prep, phase := prep.(numerator := DirectNumerator(params, sel)), NDivide;
        } else {
          prep, phase := prep.(scaleInput := ScaleOperand(sel)), NScale;
        }
      } else {
        prep := prep.(valid := false);
        if sel.op == OP_VWAP_DELTA { done, phase := true, NIdle; } else { sel := sel.(op := sel.op + 1); }
      }
    }

    method FinishOperation(quotient: nat, ok: bool)
      modifies this
      ensures View() == Collect(old(View()), quotient, ok)
    {
      hide SaturateBps, SaturateImbalance;
      if sel.op == OP_VWAP {
        out := out.(vwap := quotient % Pow2(64), vwapValid := true);
        sel := sel.(vwapReg := quotient % Pow2(64), vwapReady := true);
      } else if sel.op == OP_IMBALANCE {
        out := out.(imbalance := SaturateImbalance(quotient, prep.negative), imbalanceValid := ok);
      } else if sel.op == OP_SPREAD {
        out := out.(spreadBps := SaturateBps(quotient, false), spreadBpsValid := ok);
      } else if sel.op == OP_MOMENTUM {
        out := out.(momentumBps := SaturateBps(quotient, prep.negative), momentumBpsValid := ok);
      } else if sel.op == OP_VWAP_DELTA {
        out := out.(deltaBps := SaturateBps(quotient, prep.negative), deltaBpsValid := ok);
      }
      prep := prep.(valid := false);
      if sel.op == OP_VWAP_DELTA { done, phase := true, NIdle; } else { sel, phase := sel.(op := sel.op + 1), NStart; }
    }
  }
}
