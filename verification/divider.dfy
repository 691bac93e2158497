// The bit-serial restoring divider.
module Divider {
  import opened Bits

  /** Register values; `w` below is the numerator (and quotient) width, `d` the denominator width. */
  datatype Div = Div(busy: bool, done: bool, divideByZero: bool, quotient: nat,
                     shift: nat, work: nat, denominator: nat, remainder: nat, iteration: nat)

  datatype DivIn = DivIn(start: bool, numerator: nat, denominator: nat)

  const ResetDiv := Div(false, false, false, 0, 0, 0, 0, 0, 0)

  /** The remainder with the next numerator bit shifted in; one bit of headroom above the denominator. */
  function ShiftedRemainder(s: Div, w: nat, d: nat): nat
    requires w > 0
  {
    2 * (s.remainder % Pow2(d)) + (s.shift / Pow2(w - 1)) % 2
  }

  function ShiftedQuotient(s: Div, w: nat, d: nat): nat
    requires w > 0
  {
    (2 * s.work + if ShiftedRemainder(s, w, d) >= s.denominator then 1 else 0) % Pow2(w)
  }

  /** One clock edge. */
  function DivTick(s: Div, w: nat, d: nat, i: DivIn): Div
    requires w > 0
  {
    if !s.busy then
      if !i.start then s.(done := false, divideByZero := false)
      else if i.denominator == 0 then s.(done := true, divideByZero := true, quotient := 0)
      else Div(true, false, false, s.quotient, i.numerator, 0, i.denominator, 0, 0)
    else
      var shifted := ShiftedRemainder(s, w, d);
      var next := s.(
        divideByZero := false,
        shift := (2 * s.shift) % Pow2(w),
        remainder := if shifted >= s.denominator then shifted - s.denominator else shifted,
        work := ShiftedQuotient(s, w, d));
      if s.iteration == w - 1 then next.(busy := false, done := true, quotient := ShiftedQuotient(s, w, d))
      else next.(done := false, iteration := Wrap(s.iteration + 1, Clog2(w + 1)))
  }

  class UnsignedDivider {
    const numeratorWidth: nat
    const denominatorWidth: nat
    var busy: bool
    var done: bool
    var divideByZero: bool
    var quotient: nat
    var shift: nat
    var work: nat
    var denominator: nat
    var remainder: nat
    var iteration: nat

    ghost function View(): Div
      reads this
    {
      Div(busy, done, divideByZero, quotient, shift, work, denominator, remainder, iteration)
    }

    constructor (numeratorWidth: nat, denominatorWidth: nat)
      ensures this.numeratorWidth == numeratorWidth && this.denominatorWidth == denominatorWidth
      ensures View() == ResetDiv
    {
      this.numeratorWidth, this.denominatorWidth := numeratorWidth, denominatorWidth;
      busy, done, divideByZero, quotient := false, false, false, 0;
      shift, work, denominator, remainder, iteration := 0, 0, 0, 0, 0;
    }

    method Tick(start: bool, numerator: nat, denominatorIn: nat)
      requires numeratorWidth > 0
      modifies this
      ensures View() == DivTick(old(View()), numeratorWidth, denominatorWidth, DivIn(start, numerator, denominatorIn))
    {
      var shifted := 2 * (remainder % Pow2(denominatorWidth)) + (shift / Pow2(numeratorWidth - 1)) % 2;
      var bit := shifted >= denominator;
      var shiftedQuotient := (2 * work + if bit then 1 else 0) % Pow2(numeratorWidth);
      done, divideByZero := false, false;
      if !busy {
        if start {
          if denominatorIn == 0 {
            quotient, divideByZero, done := 0, true, true;
          } else {
            busy, shift, work, denominator, remainder, iteration := true, numerator, 0, denominatorIn, 0, 0;
          }
        }
      } else {
        shift := (2 * shift) % Pow2(numeratorWidth);
        remainder := if bit then shifted - denominator else shifted;
        work := shiftedQuotient;
        if iteration == numeratorWidth - 1 {
          busy, done, quotient := false, true, shiftedQuotient;
        } else {
          iteration := Wrap(iteration + 1, Clog2(numeratorWidth + 1));
        }
      }
    }
  }

  // ---- The division invariant ----

  /** The `n` leading bits of a `w`-bit numerator. */
  function Prefix(numerator: nat, w: nat, n: nat): nat
    requires n <= w
  {
    DivNonNegative(numerator, Pow2(w - n));
    numerator / Pow2(w - n)
  }

  /**
    Mid-division, with `n` numerator bits consumed: quotient * d + remainder is the consumed prefix,
    the remainder is below the divisor, and the shift register holds the bits still to come.
   */
  ghost predicate Dividing(s: Div, w: nat, d: nat, numerator: nat, denominator: nat, n: nat) {
    && n < w && numerator < Pow2(w) && 0 < denominator < Pow2(d)
    && s.busy && !s.done && s.denominator == denominator && s.iteration == n
    && s.work * denominator + s.remainder == Prefix(numerator, w, n)
    && s.remainder < denominator
    && s.shift == (numerator % Pow2(w - n)) * Pow2(n)
  }

  // Taking one more bit from the numerator.
  lemma {:induction false} NextBit(numerator: nat, w: nat, n: nat)
    requires n < w && numerator < Pow2(w)
    ensures
      var top := (numerator % Pow2(w - n)) * Pow2(n);
      var bit := (top / Pow2(w - 1)) % 2;
      && Prefix(numerator, w, n + 1) == 2 * Prefix(numerator, w, n) + bit
      && (2 * top) % Pow2(w) == (numerator % Pow2(w - n - 1)) * Pow2(n + 1)
  {
    var m, p := Pow2(w - n - 1), Pow2(n);
    assert Pow2(w - n) == 2 * m && Pow2(w) == 2 * Pow2(w - 1) && Pow2(n + 1) == 2 * p;
    assert Prefix(numerator, w, n) == numerator / Pow2(w - n) && Prefix(numerator, w, n + 1) == numerator / m;
    Pow2Add(w - n - 1, n);
    assert w - n - 1 + n == w - 1;
    hide Pow2, Prefix;
    var bit := SplitBit(numerator, m);
    TopBit(bit, numerator % m, m, p);
  }

  // The bit of weight `m` in `x`.
  lemma {:induction false} SplitBit(x: nat, m: nat) returns (bit: nat)
    requires m > 0
    ensures bit < 2
    ensures x / m == 2 * (x / (2 * m)) + bit
    ensures x % (2 * m) == bit * m + x % m
  {
    var q, r := x / (2 * m), x % (2 * m);
    DivMod(x, 2 * m);
    DivMod(r, m);
    DivNonNegative(r, m);
    bit := r / m;
    if bit >= 2 { MulAtLeast(bit, 2, m); }
    MulAssoc(q, 2, m);
    Distribute(2 * q, bit, m);
    ModUnique(x, 2 * q + bit, r % m, m);
  }

  lemma {:induction false} TopBit(bit: nat, low: nat, m: nat, p: nat)
    requires bit < 2 && low < m && p > 0
    ensures m * p > 0
    ensures ((bit * m + low) * p) / (m * p) == bit
    ensures (2 * ((bit * m + low) * p)) % (2 * (m * p)) == low * (2 * p)
  {
    var c, lp := m * p, low * p;
    MulAtLeast(m, low + 1, p);
    Distribute(low, 1, p);
    MulAtLeast(m, 1, p);
    assert (bit * m + low) * p == bit * c + lp by {
      Distribute(bit * m, low, p);
      MulAssoc(bit, m, p);
    }
    ModUnique(bit * c + lp, bit, lp, c);
    ModUnique(2 * (bit * c + lp), bit, 2 * lp, 2 * c);
  }

  lemma {:induction false} StartDivides(s: Div, w: nat, d: nat, numerator: nat, denominator: nat)
    requires w > 0 && numerator < Pow2(w) && 0 < denominator < Pow2(d)
    requires !s.busy
    ensures Dividing(DivTick(s, w, d, DivIn(true, numerator, denominator)), w, d, numerator, denominator, 0)
  {
    ModSmall(numerator, Pow2(w));
    assert numerator % Pow2(w) * Pow2(0) == numerator;
  }

  /** `quotient * d + remainder` determines both when the remainder is below the divisor. */
  lemma {:induction false} QuotientBelow(q: nat, d: nat, r: nat, n: nat, bound: nat)
    requires q * d + r == n && d > 0 && n < bound
    ensures q < bound
  {
    if q >= bound { MulAtLeast(q, bound, d); MulAtLeast(d, 1, bound); }
  }

  lemma {:induction false} TickDivides(s: Div, w: nat, d: nat, numerator: nat, denominator: nat, n: nat, i: DivIn)
    requires Dividing(s, w, d, numerator, denominator, n)
    ensures
      var s' := DivTick(s, w, d, i);
      if n + 1 < w then Dividing(s', w, d, numerator, denominator, n + 1)
      else !s'.busy && s'.done && !s'.divideByZero && s'.quotient == numerator / denominator
  {
    NextBit(numerator, w, n);
    var bit := (s.shift / Pow2(w - 1)) % 2;
    ModSmall(s.remainder, Pow2(d));
    var shifted := ShiftedRemainder(s, w, d);
    var q := 2 * s.work + if shifted >= denominator then 1 else 0;
    var r := if shifted >= denominator then shifted - denominator else shifted;
    assert q * denominator + r == Prefix(numerator, w, n + 1) by {
      MulAssoc(2, s.work, denominator);
      Distribute(2 * s.work, 1, denominator);
    }
    PrefixBelow(numerator, w, n + 1);
    QuotientBelow(q, denominator, r, Prefix(numerator, w, n + 1), Pow2(w));
    ModSmall(q, Pow2(w));
    ModSmall(n + 1, Pow2(Clog2(w + 1)));
    if n + 1 == w {
      ModUnique(numerator, q, r, denominator);
    }
  }

  lemma {:induction false} PrefixBelow(numerator: nat, w: nat, n: nat)
    requires n <= w && numerator < Pow2(w)
    ensures Prefix(numerator, w, n) < Pow2(w)
    ensures Prefix(numerator, w, w) == numerator
  {
    var m := Pow2(w - n);
    DivMod(numerator, m);
    if numerator / m >= Pow2(w) { MulAtLeast(numerator / m, Pow2(w), m); MulAtLeast(m, 1, Pow2(w)); }
  }

  function RunDiv(s: Div, w: nat, d: nat, ins: seq<DivIn>): Div
    requires w > 0
    decreases |ins|
  {
    if ins == [] then s else RunDiv(DivTick(s, w, d, ins[0]), w, d, ins[1..])
  }

  /** Mid-division, the remaining iterations finish the quotient whatever the inputs do meanwhile. */
  lemma {:induction false} FinishesQuotient(s: Div, w: nat, d: nat, num: nat, den: nat, n: nat, ins: seq<DivIn>)
    requires n < w && Dividing(s, w, d, num, den, n) && |ins| <= w - n
    ensures
      var s' := RunDiv(s, w, d, ins);
      if |ins| < w - n then Dividing(s', w, d, num, den, n + |ins|)
      else !s'.busy && s'.done && !s'.divideByZero && s'.quotient == num / den
    decreases |ins|
  {
    hide Dividing, DivTick;
    if ins != [] {
      TickDivides(s, w, d, num, den, n, ins[0]);
      if n + 1 < w { FinishesQuotient(DivTick(s, w, d, ins[0]), w, d, num, den, n + 1, ins[1..]); }
    }
  }

  /**
    From idle, a start with a non-zero divisor gives the exact quotient exactly `w` edges later, stays busy
    until then and ignores every input in between; a zero divisor completes on the starting edge.
   */
  lemma {:induction false} DividerIsExact(s: Div, w: nat, d: nat, num: nat, den: nat, ins: seq<DivIn>)
    requires w > 0 && num < Pow2(w) && den < Pow2(d) && !s.busy && |ins| <= w
    ensures
      var started := DivTick(s, w, d, DivIn(true, num, den));
      if den == 0 then started.done && started.divideByZero && started.quotient == 0 && !started.busy
      else
        var s' := RunDiv(started, w, d, ins);
        if |ins| < w then s'.busy && !s'.done
        else s'.done && !s'.busy && !s'.divideByZero && s'.quotient == num / den
  {
    if den > 0 {
      StartDivides(s, w, d, num, den);
      FinishesQuotient(DivTick(s, w, d, DivIn(true, num, den)), w, d, num, den, 0, ins);
    }
  }
}
