/** Unsigned machine arithmetic on naturals: powers of two, masks and wrap-around. */
module Bits {

  function Pow2(e: nat): (p: nat)
    ensures p > 0
  {
    if e == 0 then 1 else 2 * Pow2(e - 1)
  }

  /** Number of values of a 64-bit unsigned integer. */
  const W64: nat := 0x1_0000_0000_0000_0000
  const W32: nat := 0x1_0000_0000

  type U64 = x: int | 0 <= x < 0x1_0000_0000_0000_0000
  type U32 = x: int | 0 <= x < 0x1_0000_0000
  type U16 = x: int | 0 <= x < 0x1_0000
  type I32 = x: int | -0x8000_0000 <= x < 0x8000_0000
  type Byte = x: int | 0 <= x < 256

  lemma Pow2Of64()
    ensures Pow2(31) == 0x8000_0000 && Pow2(32) == W32 && Pow2(64) == W64
  {
    assert Pow2(8) == 256;
    Pow2Add(8, 8);
    assert Pow2(16) == 0x1_0000;
    Pow2Add(16, 16);
    Pow2Add(32, 32);
    assert Pow2(32) == 2 * Pow2(31);
  }

  lemma {:induction false} Pow2Add(a: nat, b: nat)
    ensures Pow2(a + b) == Pow2(a) * Pow2(b)
    decreases a
  {
    if a > 0 {
      Pow2Add(a - 1, b);
      assert Pow2(a) * Pow2(b) == 2 * (Pow2(a - 1) * Pow2(b));
    }
  }

  lemma {:induction false} Pow2Monotone(a: nat, b: nat)
    requires a <= b
    ensures Pow2(a) <= Pow2(b)
    decreases b
  {
    if a < b {
      Pow2Monotone(a, b - 1);
    }
  }

  /** Bitwise AND. */
  function And(x: nat, y: nat): nat {
    if x == 0 || y == 0 then 0 else 2 * And(x / 2, y / 2) + (x % 2) * (y % 2)
  }

  /** Masking with 2^e - 1 is the remainder modulo 2^e. */
  lemma {:induction false} MaskIsMod(x: nat, e: nat)
    ensures And(x, Pow2(e) - 1) == x % Pow2(e)
    decreases e
  {
    if e == 0 {
      assert x % 1 == 0;
    } else if x != 0 {
      var h := Pow2(e - 1);
      assert (Pow2(e) - 1) / 2 == h - 1 && (Pow2(e) - 1) % 2 == 1;
      MaskIsMod(x / 2, e - 1);
      HalfMod(x, h);
    }
  }

  lemma HalfMod(x: nat, h: nat)
    requires h > 0
    ensures x % (2 * h) == 2 * ((x / 2) % h) + x % 2
  {
    var q := (x / 2) / h;
    var r := (x / 2) % h;
    assert x / 2 == q * h + r;
    ModUnique(x, 2 * h, q, 2 * r + x % 2);
  }

  lemma StrideApart(a: int, b: int, m: nat)
    requires a < b
    ensures a * m + m <= b * m
  {
    assert b * m == (a + 1) * m + (b - a - 1) * m;
  }

  lemma ModUnique(x: nat, m: nat, q: nat, r: nat)
    requires m > 0 && x == q * m + r && r < m
    ensures x / m == q && x % m == r
  {
    var q2, r2 := x / m, x % m;
    assert x == q2 * m + r2;
    if q < q2 {
      StrideApart(q, q2, m);
    } else if q2 < q {
      StrideApart(q2, q, m);
    }
  }

  /** A wrapped counter still selects the right ring slot when the capacity divides the word. */
  lemma WrapThenMod(x: nat, cap: nat, k: nat)
    requires cap > 0 && W64 == k * cap
    ensures (x % W64) % cap == x % cap
  {
    var q, r := x / W64, x % W64;
    var q2, r2 := r / cap, r % cap;
    assert x == q * W64 + r && r == q2 * cap + r2;
    assert q * W64 == (q * k) * cap;
    assert x == (q * k + q2) * cap + r2;
    ModUnique(x, cap, q * k + q2, r2);
  }

  /** Slots of two pending counters differ when they are less than a capacity apart. */
  lemma ModDistinct(a: nat, b: nat, cap: nat)
    requires cap > 0 && a < b < a + cap
    ensures a % cap != b % cap
  {
    var q, r := a / cap, a % cap;
    assert a == q * cap + r;
    var s := r + (b - a);
    if s < cap {
      ModUnique(b, cap, q, s);
    } else {
      assert (q + 1) * cap == q * cap + cap;
      ModUnique(b, cap, q + 1, s - cap);
    }
  }
}
