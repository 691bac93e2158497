// The normaliser computes the reference arithmetic, in a number of edges fixed by which operations are valid.
module NormalizerCorrect {
  import opened Bits
  import opened MarketTypes
  import opened Divider
  import opened Normalizer

  /** The inputs respect their port widths. */
  ghost predicate InputWidths(c: NormParams, raw: Raw, reference: nat) {
    && raw.spread < Pow2(64) && raw.midpoint < Pow2(64) && (raw.momentumValid ==> reference < Pow2(64))
    && Abs(raw.momentum) <= Pow2(64) && Abs(raw.imbalanceNumerator) <= Pow2(32) && raw.imbalanceDenominator < Pow2(33)
    && raw.sumPriceQuantity < Pow2(c.sumWidth) && raw.sumQuantity < Pow2(c.quantityWidth)
  }

  /** The reference results, but from the VWAP quotient as its 64-bit register keeps it. */
  function Registered(c: Scales, raw: Raw, reference: nat): Normalized {
    NormalizeWith(c, raw, reference, Wrap(VwapOf(raw), 64))
  }

  /** A VWAP quotient that fits 64 bits, as every reachable one does, makes those the reference results. */
  lemma {:induction false} RegisterLosesNothing(c: Scales, raw: Raw, reference: nat)
    requires VwapOf(raw) < Pow2(64)
    ensures Registered(c, raw, reference) == Normalize(c, raw, reference)
  {
    hide NormalizeWith, Pow2;
  }

  /**
    Whether operation `k` divides, and how many edges it takes: one to skip, the divider's width plus overhead
    else.
   */
  function Divides(n: Normalized, k: nat): bool {
    if k == OP_VWAP then n.vwapValid
    else if k == OP_IMBALANCE then n.imbalanceValid
    else if k == OP_SPREAD then n.spreadBpsValid
    else if k == OP_MOMENTUM then n.momentumBpsValid
    else n.deltaBpsValid
  }

  function OperationEdges(c: NormParams, n: Normalized, k: nat): nat {
    if !Divides(n, k) then 1 else c.DivWidth() + if Direct(k) then 3 else 4
  }

  /** Edges from the one that loads the record to the one that raises `done`. */
  function TotalEdges(c: NormParams, n: Normalized): nat {
    OperationEdges(c, n, 0) + OperationEdges(c, n, 1) + OperationEdges(c, n, 2)
    + OperationEdges(c, n, 3) + OperationEdges(c, n, 4)
  }

  /** The results of the first `k` operations. */
  function Upto(n: Normalized, k: nat): Normalized {
    Normalized(
      if k > 0 then n.vwap else 0, k > 0 && n.vwapValid,
      if k > 1 then n.imbalance else 0, k > 1 && n.imbalanceValid,
      if k > 2 then n.spreadBps else 0, k > 2 && n.spreadBpsValid,
      if k > 3 then n.momentumBps else 0, k > 3 && n.momentumBpsValid,
      if k > 4 then n.delta else 0, k > 4 && n.deltaValid,
      if k > 4 then n.deltaBps else 0, k > 4 && n.deltaBpsValid)
  }

  function Selecting(n: Normalized, raw: Raw, reference: nat, k: nat): Operands {
    Operands(k, raw, reference, k > 0 && n.vwapValid, if k > 0 then n.vwap else 0)
  }

  /** About to dispatch operation `k`. */
  ghost predicate AtStart(s: Norm, n: Normalized, raw: Raw, reference: nat, k: nat) {
    s.phase.NStart? && !s.done && !s.div.busy && s.sel == Selecting(n, raw, reference, k) && s.out == Upto(n, k)
  }

  ghost predicate Finished(s: Norm, n: Normalized) {
    s.phase.NIdle? && s.done && !s.div.busy && s.out == n
  }

  /** `s` stays busy, with `done` low, for exactly `m` edges and is then `t`. */
  ghost predicate Reaches(c: NormParams, s: Norm, m: nat, t: Norm)
    decreases m
  {
    if m == 0 then s == t else !s.phase.NIdle? && !s.done && Reaches(c, BusyTick(c, s), m - 1, t)
  }

  lemma {:induction false} ReachesTrans(c: NormParams, s: Norm, a: nat, t: Norm, b: nat, u: Norm)
    requires Reaches(c, s, a, t) && Reaches(c, t, b, u)
    ensures Reaches(c, s, a + b, u)
    decreases a
  {
    hide BusyTick;
    if a > 0 { ReachesTrans(c, BusyTick(c, s), a - 1, t, b, u); }
  }

  // ---- The arithmetic of one operation ----

  lemma {:induction false} SaturateBpsIsSaturate(q: nat, negative: bool)
    ensures SaturateBps(q, negative) == Saturate(WithSign(q, negative), 32)
  {
    Pow2Values();
    ModSmall(q, Pow2(32));
  }

  lemma {:induction false} SaturateImbalanceIsSaturate(q: nat, negative: bool)
    ensures SaturateImbalance(q, negative) == Saturate(WithSign(q, negative), 16)
  {
    Pow2Values();
    ModSmall(q, Pow2(16));
  }

  // Dividing magnitudes and restoring the sign is truncation toward zero.
  lemma {:induction false} SignMagnitude(x: int, scale: nat, d: nat)
    requires d > 0
    ensures Abs(x) * scale >= 0
    ensures TruncDiv(x * scale, d) == WithSign(Quotient(Abs(x) * scale, d), x < 0)
    ensures x >= 0 ==> x * scale / d == Quotient(Abs(x) * scale, d)
  {
    MulAtLeast(Abs(x), 0, scale);
    if x < 0 {
      assert x * scale == -(Abs(x) * scale);
      if Abs(x) * scale == 0 { ModSmall(0, d); }
    }
  }

  lemma {:induction false} ShiftAddScales(m: nat, scale: nat, width: nat)
    requires m * scale < Pow2(width)
    ensures ScaleMagnitude(m, scale, width) == m * scale
  {
    ModSmall(m * scale, Pow2(width));
  }

  lemma {:induction false} MagnitudeIsAbs(x: int, width: nat)
    requires Abs(x) < Pow2(width)
    ensures Magnitude(x, width) == Abs(x)
  {
  }

  // Scaled magnitudes fit the divider.
  lemma {:induction false} ScaledFits(c: NormParams, m: nat)
    requires c.Valid() && m <= Pow2(64)
    ensures m * c.scales.bps < Pow2(c.DivWidth())
  {
    MulAtLeast(Pow2(64), m, c.scales.bps);
  }

  lemma {:induction false} ImbalanceFits(c: NormParams, m: nat)
    requires m <= Pow2(32)
    ensures m * Pow2(c.scales.fracBits) < Pow2(c.DivWidth())
  {
    var f := Pow2(c.scales.fracBits);
    assert Pow2(33) == 2 * Pow2(32);
    MulAtLeast(Pow2(32), m, f);
    Pow2Add(33, c.scales.fracBits);
    MulAtLeast(Pow2(33), Pow2(32) + 1, f);
    Distribute(Pow2(32), 1, f);
    Pow2Monotone(33 + c.scales.fracBits, c.DivWidth());
  }

  /** The operands of operation `k` once prepared and scaled. */
  function FinalNumerator(c: NormParams, s: Operands): nat {
    if Direct(s.op) then DirectNumerator(c, s) else ScaleMagnitude(ScaleOperand(s), c.scales.bps, c.DivWidth())
  }

  /**
    Operation `k` divides exactly when the reference result is valid, its operands fit the divider,
    and storing the quotient (or skipping) gives the reference result.
   */
  ghost predicate Exact(c: NormParams, n: Normalized, sel: Operands) {
    && (OperationValid(sel) <==> Divides(n, sel.op))
    && (!Divides(n, sel.op) ==> RecordDelta(sel, Upto(n, sel.op)) == Upto(n, sel.op + 1))
    && (Divides(n, sel.op) ==>
      && FinalNumerator(c, sel) < Pow2(c.DivWidth()) && 0 < OperationDenominator(sel) < Pow2(64)
      && Store(sel.op, Quotient(FinalNumerator(c, sel), OperationDenominator(sel)), true, OperationNegative(sel),
               RecordDelta(sel, Upto(n, sel.op))) == Upto(n, sel.op + 1))
  }

  lemma {:induction false} OperationArithmetic(c: NormParams, raw: Raw, reference: nat, k: nat)
    requires c.Valid() && InputWidths(c, raw, reference) && k < 5
    ensures var n := Registered(c.scales, raw, reference); Exact(c, n, Selecting(n, raw, reference, k))
  {
    hide Exact;
    match k
    case 0 => VwapExact(c, raw, reference);
    case 1 => ImbalanceExact(c, raw, reference);
    case 2 => SpreadExact(c, raw, reference);
    case 3 => MomentumExact(c, raw, reference);
    case 4 => DeltaExact(c, raw, reference);
  }

  lemma {:induction false} VwapArithmetic(c: NormParams, raw: Raw, reference: nat)
    requires c.Valid() && InputWidths(c, raw, reference) && raw.sumQuantity != 0
    ensures raw.sumPriceQuantity < Pow2(c.DivWidth()) && raw.sumQuantity < Pow2(64)
  {
    Pow2Monotone(c.sumWidth, c.DivWidth());
    Pow2Monotone(c.quantityWidth, 64);
  }

  lemma {:induction false} VwapExact(c: NormParams, raw: Raw, reference: nat)
    requires c.Valid() && InputWidths(c, raw, reference)
    ensures var n := Registered(c.scales, raw, reference); Exact(c, n, Selecting(n, raw, reference, OP_VWAP))
  {
    hide Quotient, Saturate, TruncDiv;
    if raw.sumQuantity != 0 { VwapArithmetic(c, raw, reference); }
  }

  lemma {:induction false} ImbalanceArithmetic(c: NormParams, x: int, d: nat)
    requires Abs(x) <= Pow2(32) && 0 < d < Pow2(33)
    ensures
      var m := Magnitude(x, 33) * Pow2(c.scales.fracBits);
      && 0 <= m < Pow2(c.DivWidth()) && d < Pow2(64)
      && SaturateImbalance(Quotient(m, d), x < 0) == Saturate(TruncDiv(x * Pow2(c.scales.fracBits), d), 16)
  {
    hide SaturateImbalance, Saturate, TruncDiv, Quotient;
    Pow2Monotone(33, 64);
    assert Pow2(33) == 2 * Pow2(32);
    MagnitudeIsAbs(x, 33);
    ImbalanceFits(c, Abs(x));
    hide Magnitude, Pow2;
    SignMagnitude(x, Pow2(c.scales.fracBits), d);
    SaturateImbalanceIsSaturate(Quotient(Abs(x) * Pow2(c.scales.fracBits), d), x < 0);
  }

  lemma {:induction false} ImbalanceExact(c: NormParams, raw: Raw, reference: nat)
    requires c.Valid() && InputWidths(c, raw, reference)
    ensures var n := Registered(c.scales, raw, reference); Exact(c, n, Selecting(n, raw, reference, OP_IMBALANCE))
  {
    var n := Registered(c.scales, raw, reference);
    assert Abs(raw.imbalanceNumerator) <= Pow2(32) && raw.imbalanceDenominator < Pow2(33);
    hide *;
    RegisteredImbalance(c.scales, raw, reference);
    ImbalanceOperands(c, n, raw, reference);
    if raw.imbalanceDenominator != 0 { ImbalanceArithmetic(c, raw.imbalanceNumerator, raw.imbalanceDenominator); }
    ImbalanceStored(c, n, raw, reference);
  }

  lemma {:induction false} ImbalanceOperands(c: NormParams, n: Normalized, raw: Raw, reference: nat)
    ensures
      var sel := Selecting(n, raw, reference, OP_IMBALANCE);
      && FinalNumerator(c, sel) == Magnitude(raw.imbalanceNumerator, 33) * Pow2(c.scales.fracBits)
      && OperationDenominator(sel) == raw.imbalanceDenominator
      && OperationNegative(sel) == (raw.imbalanceNumerator < 0)
  {
    hide Magnitude, Pow2;
  }

  lemma {:induction false} ImbalanceStored(c: NormParams, n: Normalized, raw: Raw, reference: nat)
    requires n.imbalanceValid == (raw.imbalanceValid && raw.imbalanceDenominator != 0)
    requires
      var sel := Selecting(n, raw, reference, OP_IMBALANCE);
      if n.imbalanceValid then
        && FinalNumerator(c, sel) < Pow2(c.DivWidth()) && 0 < OperationDenominator(sel) < Pow2(64)
        && n.imbalance ==
             SaturateImbalance(Quotient(FinalNumerator(c, sel), OperationDenominator(sel)), OperationNegative(sel))
      else n.imbalance == 0
    ensures Exact(c, n, Selecting(n, raw, reference, OP_IMBALANCE))
  {
    hide FinalNumerator, Quotient, SaturateImbalance, SaturateBps, Pow2;
  }

  lemma {:induction false} RegisteredImbalance(c: Scales, raw: Raw, reference: nat)
    ensures
      var n := Registered(c, raw, reference);
      && n.imbalanceValid == (raw.imbalanceValid && raw.imbalanceDenominator != 0)
      && n.imbalance == (if n.imbalanceValid
           then Saturate(TruncDiv(raw.imbalanceNumerator * Pow2(c.fracBits), raw.imbalanceDenominator), 16) else 0)
  {
    hide Wrap, VwapOf, Quotient, Saturate, TruncDiv, Pow2;
  }

  lemma {:induction false} BpsArithmetic(c: NormParams, x: int, d: nat)
    requires c.Valid() && Abs(x) <= Pow2(64) && d > 0
    ensures
      var m := Abs(x) * c.scales.bps;
      && Magnitude(x, 65) == Abs(x) && ScaleMagnitude(Abs(x), c.scales.bps, c.DivWidth()) == m
      && 0 <= m < Pow2(c.DivWidth())
      && SaturateBps(Quotient(m, d), x < 0) == Saturate(TruncDiv(x * c.scales.bps, d), 32)
      && (x >= 0 ==> TruncDiv(x * c.scales.bps, d) == x * c.scales.bps / d)
  {
    hide SaturateBps, Saturate, TruncDiv, Quotient;
    assert Pow2(65) == 2 * Pow2(64);
    MagnitudeIsAbs(x, 65);
    ScaledFits(c, Abs(x));
    ShiftAddScales(Abs(x), c.scales.bps, c.DivWidth());
    SignMagnitude(x, c.scales.bps, d);
    SaturateBpsIsSaturate(Quotient(Abs(x) * c.scales.bps, d), x < 0);
  }

  lemma {:induction false} SpreadExact(c: NormParams, raw: Raw, reference: nat)
    requires c.Valid() && InputWidths(c, raw, reference)
    ensures var n := Registered(c.scales, raw, reference); Exact(c, n, Selecting(n, raw, reference, OP_SPREAD))
  {
    hide Wrap, VwapOf, Quotient, Saturate, TruncDiv, SaturateImbalance, SaturateBps, Magnitude, ScaleMagnitude;
    if raw.midpoint != 0 { BpsArithmetic(c, raw.spread, raw.midpoint); }
  }

  lemma {:induction false} MomentumExact(c: NormParams, raw: Raw, reference: nat)
    requires c.Valid() && InputWidths(c, raw, reference)
    ensures var n := Registered(c.scales, raw, reference); Exact(c, n, Selecting(n, raw, reference, OP_MOMENTUM))
  {
    hide Wrap, VwapOf, Quotient, Saturate, TruncDiv, SaturateImbalance, SaturateBps, Magnitude, ScaleMagnitude;
    if raw.momentumValid && reference != 0 { BpsArithmetic(c, raw.momentum, reference); }
  }

  lemma {:induction false} DeltaExact(c: NormParams, raw: Raw, reference: nat)
    requires c.Valid() && InputWidths(c, raw, reference)
    ensures var n := Registered(c.scales, raw, reference); Exact(c, n, Selecting(n, raw, reference, OP_VWAP_DELTA))
  {
    hide Quotient, Saturate, TruncDiv, SaturateImbalance, SaturateBps, Magnitude, ScaleMagnitude;
    var n := Registered(c.scales, raw, reference);
    if n.vwap != 0 { BpsArithmetic(c, raw.midpoint - n.vwap, n.vwap); }
  }

  // ---- The schedule ----

  // Waiting for the divider, which is `i` bits into the division.
  lemma {:induction false} WaitForDivider(c: NormParams, s: Norm, num: nat, den: nat, i: nat) returns (d: Div)
    requires s.phase.NWait? && !s.done && i < c.DivWidth() && Dividing(s.div, c.DivWidth(), 64, num, den, i)
    ensures Reaches(c, s, c.DivWidth() - i, s.(div := d))
    ensures d.done && !d.busy && !d.divideByZero && d.quotient == Quotient(num, den)
    decreases c.DivWidth() - i
  {
    hide Dispatch, Collect, DivTick;
    assert !s.div.done;
    var next := BusyTick(c, s);
    TickDivides(s.div, c.DivWidth(), 64, num, den, i, DivIn(false, s.prep.numerator, s.prep.denominator));
    if i + 1 < c.DivWidth() {
      d := WaitForDivider(c, next, num, den, i + 1);
    } else {
      d := next.div;
    }
  }

  // From the edge that starts the divider to the edge that collects its quotient.
  lemma {:induction false} DivideAndCollect(c: NormParams, s: Norm) returns (t: Norm)
    requires s.phase.NDivide? && !s.done && !s.div.busy && s.prep.valid
    requires s.prep.numerator < Pow2(c.DivWidth()) && 0 < s.prep.denominator < Pow2(64)
    ensures Reaches(c, s, c.DivWidth() + 2, t)
    ensures !t.div.busy && t.done == (s.sel.op == OP_VWAP_DELTA)
    ensures
      t == Collect(s, Quotient(s.prep.numerator, s.prep.denominator), true).(div := t.div)
  {
    hide Dividing, DivTick, Quotient, BusyTick, Reaches, Collect;
    var w, num, den := c.DivWidth(), s.prep.numerator, s.prep.denominator;
    StartDivides(s.div, w, 64, num, den);
    var waiting := StartDivider(c, s);
    var d := WaitForDivider(c, waiting, num, den, 0);
    var ready := waiting.(div := d);
    t := CollectQuotient(c, ready);
    CollectFrame(ready.(done := false, div := t.div), s, Quotient(num, den));
    ReachesTrans(c, waiting, w, ready, 1, t);
    ReachesTrans(c, s, 1, waiting, w + 1, t);
  }

  lemma {:induction false} StartDivider(c: NormParams, s: Norm) returns (t: Norm)
    requires s.phase.NDivide? && !s.done && s.prep.valid
    ensures Reaches(c, s, 1, t)
    ensures t ==
      s.(phase := NWait, div := DivTick(s.div, c.DivWidth(), 64, DivIn(true, s.prep.numerator, s.prep.denominator)))
  {
    hide DivTick, Dispatch, Collect;
    t := BusyTick(c, s);
    ReachesOne(c, s, t);
  }

  lemma {:induction false} CollectQuotient(c: NormParams, s: Norm) returns (t: Norm)
    requires s.phase.NWait? && !s.done && s.div.done && !s.div.busy && !s.div.divideByZero
    ensures Reaches(c, s, 1, t) && !t.div.busy
    ensures t == Collect(s.(done := false, div := t.div), s.div.quotient, true)
  {
    hide DivTick, Dispatch;
    t := BusyTick(c, s);
    IdleDivider(s.div, c.DivWidth(), DivIn(false, s.prep.numerator, s.prep.denominator));
    ReachesOne(c, s, t);
  }

  lemma {:induction false} IdleDivider(d: Div, w: nat, i: DivIn)
    requires w > 0 && !d.busy && !i.start
    ensures DivTick(d, w, 64, i) == d.(done := false, divideByZero := false)
  {
  }

  lemma {:induction false} ReachesOne(c: NormParams, s: Norm, t: Norm)
    requires !s.phase.NIdle? && !s.done && t == BusyTick(c, s)
    ensures Reaches(c, s, 1, t)
  {
    hide BusyTick;
    assert Reaches(c, t, 0, t);
  }

  // Collecting reads only the operands, the outputs and the done flag.
  lemma {:induction false} CollectFrame(a: Norm, b: Norm, q: nat)
    requires a.sel == b.sel && a.prep == b.prep && a.out == b.out && !a.done && !b.done
    ensures Collect(a, q, true) == Collect(b, q, true).(div := a.div)
    ensures Collect(a, q, true).div == a.div && Collect(a, q, true).done == (a.sel.op == OP_VWAP_DELTA)
  {
    hide Store;
  }

  /** Operation `k` has its operands prepared and is about to start the divider. */
  ghost predicate Ready(c: NormParams, s: Norm, n: Normalized, raw: Raw, reference: nat, k: nat) {
    && s.phase.NDivide? && !s.done && !s.div.busy && s.sel == Selecting(n, raw, reference, k)
    && s.prep.valid && s.prep.numerator == FinalNumerator(c, s.sel)
    && s.prep.denominator == OperationDenominator(s.sel) && s.prep.negative == OperationNegative(s.sel)
    && s.out == RecordDelta(s.sel, Upto(n, k))
  }

  // A valid operation reaches the divider in one edge, or two when its magnitude is scaled.
  lemma {:induction false} DispatchPrepares(c: NormParams, s: Norm, n: Normalized, raw: Raw, reference: nat, k: nat)
    returns (t: Norm)
    requires k < 5 && AtStart(s, n, raw, reference, k) && OperationValid(s.sel)
    ensures Reaches(c, s, if Direct(k) then 1 else 2, t) && Ready(c, t, n, raw, reference, k)
  {
    hide OperationNegative, OperationDenominator, ScaleOperand, DirectNumerator, ScaleMagnitude, OperationValid, Upto,
      RecordDelta;
    var first := BusyTick(c, s);
    assert Reaches(c, s, 1, first);
    assert first.prep == Prepare(c, s.sel, s.prep) && first.sel == s.sel;
    if Direct(k) {
      t := first;
    } else {
      t := BusyTick(c, first);
      assert Reaches(c, first, 1, t);
      ReachesTrans(c, s, 1, first, 1, t);
    }
  }

  lemma {:induction false} SkipAdvances(c: NormParams, s: Norm, n: Normalized, raw: Raw, reference: nat, k: nat)
    requires k < 5 && AtStart(s, n, raw, reference, k) && !OperationValid(s.sel) && !Divides(n, k)
    requires RecordDelta(s.sel, Upto(n, k)) == Upto(n, k + 1)
    requires k == 0 ==> (!n.vwapValid && n.vwap == 0)
    ensures
      var t := BusyTick(c, s);
      if k < 4 then AtStart(t, n, raw, reference, k + 1) else Finished(t, Upto(n, 5))
  {
    hide OperationValid, RecordDelta, Upto, Divides;
  }

  lemma {:induction false} CollectAdvances(c: NormParams, s: Norm, t: Norm, n: Normalized, raw: Raw, reference: nat,
      k: nat)
    requires k < 5 && Ready(c, s, n, raw, reference, k) && s.prep.denominator > 0
    requires
      var q := Quotient(s.prep.numerator, s.prep.denominator);
      && t == Collect(s, q, true).(div := t.div)
      && Store(k, q, true, s.prep.negative, s.out) == Upto(n, k + 1)
      && (k == 0 ==> n.vwapValid && n.vwap == q % Pow2(64))
    requires !t.div.busy && t.done == (k == OP_VWAP_DELTA)
    ensures if k < 4 then AtStart(t, n, raw, reference, k + 1) else Finished(t, Upto(n, 5))
  {
    hide Store, Upto, OperationNegative, OperationDenominator, FinalNumerator, RecordDelta;
  }

  lemma {:induction false} UptoAll(c: Scales, raw: Raw, reference: nat)
    ensures var n := Registered(c, raw, reference); Upto(n, 5) == n && Upto(n, 0) == NoResult
    ensures var n := Registered(c, raw, reference); !n.vwapValid ==> n.vwap == 0
  {
  }

  // One operation, from its dispatch edge to the next.
  lemma {:induction false} OperationCompletes(c: NormParams, s: Norm, raw: Raw, reference: nat, k: nat)
    returns (t: Norm)
    requires c.Valid() && InputWidths(c, raw, reference) && k < 5
    requires AtStart(s, Registered(c.scales, raw, reference), raw, reference, k)
    ensures
      var n := Registered(c.scales, raw, reference);
      && Reaches(c, s, OperationEdges(c, n, k), t)
      && (if k < 4 then AtStart(t, n, raw, reference, k + 1) else Finished(t, n))
  {
    hide Registered, InputWidths, Store, OperationValid, Divides, RecordDelta, BusyTick, FinalNumerator,
      OperationDenominator, OperationNegative, Collect, Upto;
    var n := Registered(c.scales, raw, reference);
    OperationArithmetic(c, raw, reference, k);
    UptoAll(c.scales, raw, reference);
    if Divides(n, k) {
      var ready := DispatchPrepares(c, s, n, raw, reference, k);
      t := DivideAndCollect(c, ready);
      ReachesTrans(c, s, if Direct(k) then 1 else 2, ready, c.DivWidth() + 2, t);
      VwapFits(c, raw, reference);
      CollectAdvances(c, ready, t, n, raw, reference, k);
    } else {
      t := BusyTick(c, s);
      assert Reaches(c, s, 1, t);
      assert k == 0 ==> !n.vwapValid by { assert Divides(n, 0) == n.vwapValid by { DividesVwap(n); } }
      SkipAdvances(c, s, n, raw, reference, k);
    }
  }

  lemma {:induction false} DividesVwap(n: Normalized)
    ensures Divides(n, 0) == n.vwapValid
  {
  }

  lemma {:induction false} VwapFits(c: NormParams, raw: Raw, reference: nat)
    requires c.Valid() && InputWidths(c, raw, reference)
    ensures
      var n := Registered(c.scales, raw, reference);
      var sel := Selecting(n, raw, reference, 0);
      Divides(n, 0) ==>
        n.vwapValid && OperationDenominator(sel) > 0 &&
        n.vwap == Quotient(FinalNumerator(c, sel), OperationDenominator(sel)) % Pow2(64)
  {
    if Divides(Registered(c.scales, raw, reference), 0) { VwapArithmetic(c, raw, reference); }
  }

  // All five operations, from the first dispatch edge.
  lemma {:induction false} ScheduleCompletes(c: NormParams, s: Norm, raw: Raw, reference: nat) returns (t: Norm)
    requires c.Valid() && InputWidths(c, raw, reference)
    requires AtStart(s, Registered(c.scales, raw, reference), raw, reference, 0)
    ensures
      var n := Registered(c.scales, raw, reference);
      Reaches(c, s, TotalEdges(c, n), t) && Finished(t, n)
  {
    hide Registered, InputWidths, AtStart, Finished, OperationEdges, Reaches;
    var n := Registered(c.scales, raw, reference);
    var t0 := OperationCompletes(c, s, raw, reference, 0);
    var t1 := OperationCompletes(c, t0, raw, reference, 1);
    var t2 := OperationCompletes(c, t1, raw, reference, 2);
    var t3 := OperationCompletes(c, t2, raw, reference, 3);
    t := OperationCompletes(c, t3, raw, reference, 4);
    var e0, e1, e2 := OperationEdges(c, n, 0), OperationEdges(c, n, 1), OperationEdges(c, n, 2);
    ReachesTrans(c, s, e0, t0, e1, t1);
    ReachesTrans(c, s, e0 + e1, t1, e2, t2);
    ReachesTrans(c, s, e0 + e1 + e2, t2, OperationEdges(c, n, 3), t3);
    ReachesTrans(c, s, e0 + e1 + e2 + OperationEdges(c, n, 3), t3, OperationEdges(c, n, 4), t);
  }

  lemma {:induction false} LoadStarts(c: NormParams, s: Norm, raw: Raw, reference: nat)
    requires s.phase.NIdle? && !s.div.busy
    ensures AtStart(NormTick(c, s, NormIn(true, raw, reference)), Registered(c.scales, raw, reference), raw, reference,
      0)
  {
    hide Registered;
    UptoAll(c.scales, raw, reference);
  }

  function RunNorm(c: NormParams, s: Norm, ins: seq<NormIn>): Norm
    decreases |ins|
  {
    if ins == [] then s else RunNorm(c, NormTick(c, s, ins[0]), ins[1..])
  }

  // A busy normaliser ignores its inputs.
  lemma {:induction false} BusyIgnoresInputs(c: NormParams, s: Norm, m: nat, t: Norm, ins: seq<NormIn>)
    requires Reaches(c, s, m, t) && |ins| <= m
    ensures
      var r := RunNorm(c, s, ins);
      if |ins| == m then r == t else !r.phase.NIdle? && !r.done
    decreases |ins|
  {
    hide BusyTick;
    if ins != [] { BusyIgnoresInputs(c, NormTick(c, s, ins[0]), m - 1, t, ins[1..]); }
  }

  /**
    A record loaded into an idle normaliser is finished exactly `TotalEdges` edges later and not before,
    whatever its input pins do meanwhile, with the truncated and saturated results of the reference model.
   */
  lemma {:induction false} NormalizerIsExact(c: NormParams, s: Norm, raw: Raw, reference: nat, ins: seq<NormIn>)
    requires c.Valid() && InputWidths(c, raw, reference)
    requires s.phase.NIdle? && !s.div.busy
    requires |ins| <= TotalEdges(c, Registered(c.scales, raw, reference))
    ensures
      var n := Registered(c.scales, raw, reference);
      var r := RunNorm(c, NormTick(c, s, NormIn(true, raw, reference)), ins);
      if |ins| < TotalEdges(c, n) then !r.done && !r.phase.NIdle?
      else r.done && r.phase.NIdle? && r.out == n && !r.div.busy
  {
    hide Registered, InputWidths, AtStart, NormTick, TotalEdges;
    LoadStarts(c, s, raw, reference);
    var start := NormTick(c, s, NormIn(true, raw, reference));
    var t := ScheduleCompletes(c, start, raw, reference);
    BusyIgnoresInputs(c, start, TotalEdges(c, Registered(c.scales, raw, reference)), t, ins);
  }

  /** With the default 101-bit sum, a fully valid record takes 523 edges and an empty one takes five. */
  lemma {:induction false} DefaultLatency(c: NormParams, n: Normalized)
    requires c.sumWidth == 101 && c.scales.fracBits == 15
    ensures 5 <= TotalEdges(c, n) <= 523
    ensures TotalEdges(c, n) == 523 <==>
      n.vwapValid && n.imbalanceValid && n.spreadBpsValid && n.momentumBpsValid && n.deltaBpsValid
  {
  }

  /** The production parameters leave the scaled magnitudes room: no operation can overflow the divider. */
  lemma {:induction false} DefaultParametersAreValid(c: NormParams)
    requires c.sumWidth >= 97 && c.quantityWidth <= 64 && c.scales.bps == 1000000
    ensures c.Valid()
  {
    Pow2Values();
    Pow2Add(64, 20);
    Pow2Monotone(84, c.DivWidth());
    assert 64 + 20 == 84;
  }
}
