// Gray-coded pointers: the binary/Gray conversion, the full test on inverted top bits, and what a
// synchroniser can sample while a pointer is changing.
module GrayCode {
  import opened Bits

  /** Bitwise exclusive or, low bit first. */
  function Xor(a: nat, b: nat): (x: nat)
    decreases a + b
  {
    if a == 0 && b == 0 then 0 else 2 * Xor(a / 2, b / 2) + (if a % 2 != b % 2 then 1 else 0)
  }

  /** The Gray code of a binary pointer: `(n >> 1) ^ n`. */
  function Gray(n: nat): nat {
    Xor(n / 2, n)
  }

  /** `{~g[k:k-1], g[k-2:0]}`: a pointer of `k + 1` bits with its two top bits inverted. */
  function InvertTopTwo(g: nat, k: nat): nat
    requires k >= 1 && g < Pow2(k + 1)
  {
    TopTwoBits(g, k);
    (3 - g / Pow2(k - 1)) * Pow2(k - 1) + g % Pow2(k - 1)
  }

  lemma {:induction false} TopTwoBits(g: nat, k: nat)
    requires k >= 1 && g < Pow2(k + 1)
    ensures 0 <= g / Pow2(k - 1) <= 3
  {
    var p := Pow2(k - 1);
    assert Pow2(k) == 2 * p && Pow2(k + 1) == 2 * Pow2(k);
    if g / p >= 4 { MulAtLeast(g / p, 4, p); }
  }

  // One Gray digit at a time: the low digit says whether the two low binary digits differ.
  lemma {:induction false} GrayDigit(n: nat)
    ensures Gray(n) / 2 == Gray(n / 2)
    ensures Gray(n) % 2 == if n % 2 != (n / 2) % 2 then 1 else 0
  {
  }

  lemma {:induction false} GrayBound(n: nat, j: nat)
    requires n < Pow2(j)
    ensures Gray(n) < Pow2(j)
  {
    GrayDigit(n);
    if j > 0 { GrayBound(n / 2, j - 1); }
  }

  /** No two pointers share a Gray code. */
  lemma {:induction false} GrayInjective(a: nat, b: nat)
    requires Gray(a) == Gray(b)
    ensures a == b
    decreases a + b
  {
    if a + b > 0 {
      GrayDigit(a);
      GrayDigit(b);
      GrayInjective(a / 2, b / 2);
    }
  }

  /** Inverting the two top Gray bits moves a pointer exactly half its range: one whole buffer. */
  lemma {:induction false} InvertedIsHalfRangeAhead(r: nat, k: nat)
    requires k >= 1 && r < Pow2(k + 1)
    ensures Gray(r) < Pow2(k + 1)
    ensures Gray((r + Pow2(k)) % Pow2(k + 1)) == InvertTopTwo(Gray(r), k)
    decreases k
  {
    GrayBound(r, k + 1);
    if k == 1 {
      InvertedBase(r);
    } else {
      var p := Pow2(k - 2);
      assert Pow2(k - 1) == 2 * p && Pow2(k) == 4 * p && Pow2(k + 1) == 8 * p;
      HalfRangeDigits(r, p);
      InvertedIsHalfRangeAhead(r / 2, k - 1);
      InvertedStep(r, (r + 4 * p) % (8 * p), k);
    }
  }

  lemma {:induction false} InvertedBase(r: nat)
    requires r < 4
    ensures Gray(r) < Pow2(2)
    ensures Gray((r + Pow2(1)) % Pow2(2)) == InvertTopTwo(Gray(r), 1)
  {
    assert Pow2(0) == 1 && Pow2(1) == 2 && Pow2(2) == 4;
    assert Gray(0) == 0 && Gray(1) == 1 && Gray(2) == 3 && Gray(3) == 2 by { SmallCodes(); }
    hide Gray;
    HalfRange(r, 2, 4);
  }

  lemma {:induction false} SmallCodes()
    ensures Gray(0) == 0 && Gray(1) == 1 && Gray(2) == 3 && Gray(3) == 2
  {
    GrayDigit(2);
    GrayDigit(3);
  }

  lemma {:induction false} InvertedStep(r: nat, far: nat, k: nat)
    requires k >= 2 && r < Pow2(k + 1)
    requires Gray(r) < Pow2(k + 1) && Gray(r / 2) < Pow2(k)
    requires far % 2 == r % 2 && (far / 2) % 2 == (r / 2) % 2
    requires Gray(far / 2) == InvertTopTwo(Gray(r / 2), k - 1)
    ensures Gray(far) == InvertTopTwo(Gray(r), k)
  {
    GrayDigit(r);
    GrayDigit(far);
    InvertDigit(Gray(r), k);
  }

  // Half a range ahead, the low digit is unchanged and the rest is half a range ahead.
  lemma {:induction false} HalfRangeDigits(r: nat, p: nat)
    requires p >= 1 && r < 8 * p
    ensures ((r + 4 * p) % (8 * p)) / 2 == (r / 2 + 2 * p) % (4 * p)
    ensures ((r + 4 * p) % (8 * p)) % 2 == r % 2
    ensures ((r / 2 + 2 * p) % (4 * p)) % 2 == (r / 2) % 2
  {
    HalfRange(r, 4 * p, 8 * p);
    HalfRange(r / 2, 2 * p, 4 * p);
    FarDigits(r, p, if r < 4 * p then r + 4 * p else r - 4 * p);
  }

  lemma {:induction false} FarDigits(r: nat, p: nat, far: nat)
    requires r < 8 * p && far == if r < 4 * p then r + 4 * p else r - 4 * p
    ensures far / 2 == (if r / 2 < 2 * p then r / 2 + 2 * p else r / 2 - 2 * p) && far % 2 == r % 2
      && (far / 2) % 2 == (r / 2) % 2
  {
    var k: int := p;
    if r < 4 * p {
      ShiftDigits(r, 2 * k);
      ShiftDigits(r / 2, k);
    } else {
      ShiftDigits(r, -2 * k);
      ShiftDigits(r / 2, -k);
    }
  }

  // Adding an even number keeps the low digit.
  lemma {:induction false} ShiftDigits(r: int, k: int)
    ensures (r + 2 * k) / 2 == r / 2 + k && (r + 2 * k) % 2 == r % 2
  {
    ModUnique(r + 2 * k, r / 2 + k, r % 2, 2);
  }

  lemma {:induction false} HalfRange(r: nat, m: nat, full: nat)
    requires full == 2 * m && r < full
    ensures (r + m) % full == if r < m then r + m else r - m
  {
    if r < m {
      ModSmall(r + m, full);
    } else {
      ModUnique(r + m, 1, r - m, full);
    }
  }

  lemma {:induction false} InvertDigit(g: nat, k: nat)
    requires k >= 2 && g < Pow2(k + 1)
    ensures g / 2 < Pow2(k)
    ensures InvertTopTwo(g, k) / 2 == InvertTopTwo(g / 2, k - 1)
    ensures InvertTopTwo(g, k) % 2 == g % 2
  {
    var p := Pow2(k - 2);
    assert Pow2(k - 1) == 2 * p;
    var h := g / 2;
    var q, m := h / p, h % p;
    assert h == q * p + m;
    assert g == q * (2 * p) + (2 * m + g % 2);
    ModUnique(g, q, 2 * m + g % 2, 2 * p);
    assert InvertTopTwo(g, k) == (3 - q) * (2 * p) + (2 * m + g % 2);
    assert InvertTopTwo(h, k - 1) == (3 - q) * p + m;
    assert (3 - q) * (2 * p) == 2 * ((3 - q) * p);
  }

  /** `a` and `b` differ in exactly one bit. */
  predicate OneBitApart(a: nat, b: nat)
    decreases a + b
  {
    if a == 0 && b == 0 then false
    else if a % 2 == b % 2 then OneBitApart(a / 2, b / 2)
    else a / 2 == b / 2
  }

  /** Every bit of `x` is the corresponding bit of `a` or of `b`: what is captured mid-transition. */
  predicate Torn(a: nat, b: nat, x: nat)
    decreases a + b + x
  {
    (a == 0 && b == 0 && x == 0)
    || (a + b + x > 0 && (x % 2 == a % 2 || x % 2 == b % 2) && Torn(a / 2, b / 2, x / 2))
  }

  lemma {:induction false} TornSelf(a: nat, x: nat)
    requires Torn(a, a, x)
    ensures x == a
    decreases a + x
  {
    if a + x > 0 { TornSelf(a / 2, x / 2); }
  }

  /** A sample torn between codes one bit apart is one of the two codes. */
  lemma {:induction false} TornIsOldOrNew(a: nat, b: nat, x: nat)
    requires OneBitApart(a, b) && Torn(a, b, x)
    ensures x == a || x == b
    decreases a + b + x
  {
    if a % 2 == b % 2 {
      TornIsOldOrNew(a / 2, b / 2, x / 2);
    } else {
      TornSelf(a / 2, x / 2);
    }
  }

  lemma {:induction false} IncrementFlipsOneBit(n: nat)
    ensures OneBitApart(Gray(n), Gray(n + 1))
  {
    hide Gray;
    GrayDigit(n);
    GrayDigit(n + 1);
    if n % 2 == 1 { IncrementFlipsOneBit(n / 2); }
  }

  lemma {:induction false} WrapFlipsOneBit(j: nat)
    requires j >= 1
    ensures OneBitApart(Gray(Pow2(j) - 1), 0)
  {
    if j == 1 {
      assert Pow2(0) == 1 && Pow2(1) == 2;
      assert Gray(1) == 1;
    } else {
      WrapFlipsOneBit(j - 1);
      AllOnesDigit(Pow2(j - 2));
    }
  }

  // The code of an all-ones pointer has an even low digit, so the one set bit is the top one.
  lemma {:induction false} AllOnesDigit(p: nat)
    requires p >= 1
    ensures Gray(4 * p - 1) % 2 == 0 && Gray(4 * p - 1) / 2 == Gray(2 * p - 1)
  {
    hide Gray;
    GrayDigit(4 * p - 1);
    assert (4 * p - 1) / 2 == 2 * p - 1;
    assert (4 * p - 1 + (2 * p - 1)) == 2 * (3 * p - 1);
  }

  /** Counting up, including the wrap to zero, changes one Gray bit at a time. */
  lemma {:induction false} CountingFlipsOneBit(n: nat, j: nat)
    requires j >= 1 && n < Pow2(j)
    ensures OneBitApart(Gray(n), Gray((n + 1) % Pow2(j)))
  {
    if n + 1 < Pow2(j) {
      ModSmall(n + 1, Pow2(j));
      IncrementFlipsOneBit(n);
    } else {
      ModUnique(n + 1, 1, 0, Pow2(j));
      WrapFlipsOneBit(j);
      assert Gray(0) == 0;
    }
  }
}
