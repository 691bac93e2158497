// Powers of two, register widths and modular counters: the arithmetic shared by the hardware models.
module Bits {

  function Pow2(n: nat): (p: nat)
    ensures p >= 1
  {
    if n == 0 then 1 else 2 * Pow2(n - 1)
  }

  /** The value a register of `width` bits holds after being assigned `x`. */
  function Wrap(x: int, width: nat): (r: nat)
    ensures r < Pow2(width)
    ensures 0 <= x < Pow2(width) ==> r == x
  {
    ModSmall(x, Pow2(width));
    x % Pow2(width)
  }

  /** The value of the low `width` bits of a number read as two's complement. */
  function Signed(x: nat, width: nat): int
    requires width > 0
  {
    var low := Wrap(x, width);
    if low >= Pow2(width - 1) then low - Pow2(width) else low
  }

  /** `$clog2`: the least number of bits that can count `n` values. */
  function Clog2(n: nat): (k: nat)
    ensures n <= Pow2(k)
    ensures k > 0 ==> Pow2(k - 1) < n
  {
    if n <= 1 then 0 else
      var h := Clog2((n + 1) / 2);
      h + 1
  }

  lemma {:induction false} Pow2Add(a: nat, b: nat)
    ensures Pow2(a + b) == Pow2(a) * Pow2(b)
  {
    if a == 0 {
    } else {
      Pow2Add(a - 1, b);
      assert a + b - 1 == (a - 1) + b;
      MulAssoc(2, Pow2(a - 1), Pow2(b));
    }
  }

  lemma {:induction false} Pow2Values()
    ensures Pow2(8) == 0x100 && Pow2(15) == 0x8000 && Pow2(16) == 0x1_0000
    ensures Pow2(31) == 0x8000_0000 && Pow2(32) == 0x1_0000_0000
    ensures Pow2(64) == 0x1_0000_0000_0000_0000 && Pow2(20) == 0x10_0000
  {
    assert Pow2(0) == 1 && Pow2(1) == 2 && Pow2(2) == 4 && Pow2(3) == 8 && Pow2(4) == 16;
    Pow2Add(4, 4);
    Pow2Add(8, 8);
    Pow2Add(16, 4);
    Pow2Add(16, 16);
    Pow2Add(32, 32);
    assert Pow2(16) == 2 * Pow2(15) && Pow2(32) == 2 * Pow2(31);
  }

  lemma {:induction false} Pow2Monotone(a: nat, b: nat)
    requires a <= b
    ensures Pow2(a) <= Pow2(b)
  {
    if a < b { Pow2Monotone(a, b - 1); }
  }

  lemma {:induction false} MulAssoc(a: int, b: int, c: int)
    ensures (a * b) * c == a * (b * c)
  {
  }

  /** Two counters less than `m` apart that agree modulo `m` are equal. */
  lemma {:induction false} ModDistinct(a: nat, b: nat, m: nat)
    requires a <= b < a + m
    requires a % m == b % m
    ensures a == b
  {
    var q, p := a / m, b / m;
    assert b - a == (p - q) * m by { Distribute(p, q, m); }
    SmallMultiple(p - q, m);
  }

  /** The only multiple of `m` nearer to zero than `m` is zero. */
  lemma {:induction false} SmallMultiple(k: int, m: int)
    requires m >= 0
    requires -m < k * m < m
    ensures k == 0
  {
    if k >= 1 { MulAtLeast(k, 1, m); }
    if k <= -1 { MulAtLeast(-1, k, m); }
  }

  lemma {:induction false} Distribute(a: int, b: int, m: int)
    ensures (a - b) * m == a * m - b * m
    ensures (a + b) * m == a * m + b * m
  {
  }

  lemma {:induction false} MulAtLeast(a: int, b: int, m: nat)
    requires a >= b
    ensures a * m >= b * m
  {
  }

  /** Adding before or after reducing modulo `m` gives the same register value. */
  lemma {:induction false} ModAdd(a: int, b: int, m: nat)
    requires m > 0
    ensures (a % m + b) % m == (a + b) % m
  {
    var q, p := a / m, (a + b) / m;
    var r := (a % m + b) % m;
    var t := (a % m + b) / m;
    assert a + b == (q + t) * m + r by {
      assert a == q * m + a % m;
      assert a % m + b == t * m + r;
      Distribute(q, t, m);
    }
    ModUnique(a + b, q + t, r, m);
  }

  lemma {:induction false} ModUnique(x: int, q: int, r: int, m: nat)
    requires 0 <= r < m
    requires x == q * m + r
    ensures x / m == q && x % m == r
  {
    var q', r' := x / m, x % m;
    assert (q' - q) * m == r - r' by { Distribute(q', q, m); }
    SmallMultiple(q' - q, m);
  }

  lemma {:induction false} MulLess(a: nat, b: nat, x: nat, y: nat)
    requires a < x && b < y
    ensures a * b < x * y
  {
    MulAtLeast(x - 1, a, b);
    MulAtLeast(y - 1, b, x - 1);
    assert (y - 1) * (x - 1) == x * y - x - y + 1;
    assert b * (x - 1) == (x - 1) * b;
  }

  lemma {:induction false} NegMul(a: int, b: int)
    ensures (-a) * b == -(a * b) && a * (-b) == -(a * b) && (-a) * (-b) == a * b
  {
  }

  lemma {:induction false} NonNegativeFactor(s: int, g: int)
    requires s > 0 && s * g >= 0
    ensures g >= 0
  {
    if g <= -1 { MulAtLeast(-1, g, s); }
  }

  lemma {:induction false} DivMod(x: int, m: nat)
    requires m > 0
    ensures x == (x / m) * m + x % m && 0 <= x % m < m
  {
  }

  lemma {:induction false} DivNonNegative(x: nat, m: nat)
    requires m > 0
    ensures x / m >= 0
  {
    if x / m <= -1 { MulAtLeast(-1, x / m, m); }
  }

  lemma {:induction false} ModSmall(x: int, m: nat)
    requires m > 0
    ensures 0 <= x < m ==> x % m == x && x / m == 0
  {
    if 0 <= x < m { ModUnique(x, 0, x, m); }
  }
}
