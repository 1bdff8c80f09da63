/** Java's two's-complement `int` and `long` arithmetic, written out over
    Dafny's unbounded integers, and the fixed-point scale used for camera
    coordinates. */
module FixedPoint {

  const TWO_31: int := 0x8000_0000
  const TWO_32: int := 0x1_0000_0000
  const TWO_63: int := 0x8000_0000_0000_0000
  const TWO_64: int := 0x1_0000_0000_0000_0000

  const INT_MIN: int := -TWO_31
  const INT_MAX: int := TWO_31 - 1

  /** The values a Java `int` can hold. */
  predicate IsInt32(x: int) {
    INT_MIN <= x <= INT_MAX
  }

  /** The `int` holding the low 32 bits of `x`: an `(int)` cast, or the
      result of `int` arithmetic that overflowed. */
  function Wrap32(x: int): (r: int)
    ensures IsInt32(r)
    ensures IsInt32(x) ==> r == x
  {
    (x + TWO_31) % TWO_32 - TWO_31
  }

  /** The `long` holding the low 64 bits of `x`. */
  function Wrap64(x: int): (r: int)
    ensures -TWO_63 <= r < TWO_63
    ensures -TWO_63 <= x < TWO_63 ==> r == x
  {
    (x + TWO_63) % TWO_64 - TWO_63
  }

  /** `x + 1` on a Java `int` (what `incrementAndGet` and `invalidVersion + 1` compute). */
  function Inc32(x: int): int {
    Wrap32(x + 1)
  }

  /** Unary minus on a Java `int`. */
  function Neg32(x: int): int {
    Wrap32(-x)
  }

  function Pow2(n: nat): (r: nat)
    ensures r >= 1
  {
    if n == 0 then 1 else 2 * Pow2(n - 1)
  }

  /** `x << n` on a Java `int`, for a shift distance below 32: `n`
      doublings, each keeping the low 32 bits. */
  function Shl32(x: int, n: nat): int
    requires n < 32
    decreases n
  {
    if n == 0 then Wrap32(x) else Shl32(Wrap32(2 * x), n - 1)
  }

  /** Two values that agree modulo 2^32 narrow to the same `int`. */
  lemma Wrap32Congruent(x: int, y: int, k: int)
    requires x == y + k * TWO_32
    ensures Wrap32(x) == Wrap32(y)
  {
    var a := y + TWO_31;
    assert x + TWO_31 == a + k * TWO_32;
    assert (a + k * TWO_32) % TWO_32 == a % TWO_32;
  }

  /** Scaling commutes with keeping the low 32 bits. */
  lemma WrapThenScale(y: int, p: nat)
    ensures Wrap32(Wrap32(y) * p) == Wrap32(y * p)
  {
    var k := (y + TWO_31) / TWO_32;
    var w := Wrap32(y);
    assert w == y - k * TWO_32;
    calc {
      w * p;
      (y - k * TWO_32) * p;
      { MulDistributes(y, -k * TWO_32, p); }
      y * p + (-k * TWO_32) * p;
      y * p + (-(k * p)) * TWO_32;
    }
    Wrap32Congruent(w * p, y * p, -(k * p));
  }

  lemma MulDistributes(a: int, b: int, c: int)
    ensures (a + b) * c == a * c + b * c
  {
  }

  /** A shift keeps the low 32 bits of the exact product `x * 2^n`. */
  lemma {:induction false} Shl32IsLowBits(x: int, n: nat)
    requires n < 32
    ensures Shl32(x, n) == Wrap32(x * Pow2(n))
    decreases n
  {
    if n > 0 {
      var p := Pow2(n - 1);
      Shl32IsLowBits(Wrap32(2 * x), n - 1);
      WrapThenScale(2 * x, p);
      assert x * Pow2(n) == (2 * x) * p;
    }
  }

  /** Narrowing a `long` to an `int` keeps the low 32 bits of the exact
      value, whatever the 64-bit arithmetic wrapped on the way. */
  lemma {:induction false} NarrowWrap64(x: int)
    ensures Wrap32(Wrap64(x)) == Wrap32(x)
  {
    var q := (x + TWO_63) / TWO_64;
    assert Wrap64(x) == x - q * TWO_64;
    Wrap32Congruent(Wrap64(x), x, -q * TWO_32);
  }

  /** `incrementAndGet` raises an `int` by exactly one, except that the
      largest `int` wraps to the smallest. */
  lemma Inc32Step(x: int)
    requires IsInt32(x)
    ensures x < INT_MAX ==> Inc32(x) == x + 1
    ensures x == INT_MAX ==> Inc32(x) == INT_MIN
  {
    if x == INT_MAX {
      Wrap32Congruent(x + 1, INT_MIN, 1);
    }
  }

  lemma {:induction false} Pow2Monotone(m: nat, n: nat)
    requires m <= n
    ensures Pow2(m) <= Pow2(n)
  {
    if m < n {
      Pow2Monotone(m, n - 1);
    }
  }

  lemma Pow2Of16()
    ensures Pow2(16) == 0x1_0000
  {
    assert Pow2(1) == 2; assert Pow2(2) == 4; assert Pow2(3) == 8; assert Pow2(4) == 16; assert Pow2(5) == 32; assert Pow2(6) == 64; assert Pow2(7) == 128; assert Pow2(8) == 256; assert Pow2(9) == 512; assert Pow2(10) == 1024; assert Pow2(11) == 2048; assert Pow2(12) == 4096; assert Pow2(13) == 8192; assert Pow2(14) == 16384; assert Pow2(15) == 32768; assert Pow2(16) == 65536;
  }

  lemma {:induction false} MulBound(x: int, u: nat)
    requires -0x4000 <= x <= 0x4000
    ensures -0x4000 * u <= x * u <= 0x4000 * u
  {
    if u > 0 {
      MulBound(x, u - 1);
      assert x * u == x * (u - 1) + x;
    }
  }

  /** Scaling by a natural number preserves order. */
  lemma {:induction false} MulMonotone(a: int, b: int, u: nat)
    requires a <= b
    ensures a * u <= b * u
  {
    if u > 0 {
      MulMonotone(a, b, u - 1);
      assert a * u == a * (u - 1) + a && b * u == b * (u - 1) + b;
    }
  }

  /** A shift by at most 16 of a value of magnitude at most 2^14 neither
      overflows nor changes sign, so it is an exact multiplication. */
  lemma ShiftIsExact(x: int, n: nat)
    requires n <= 16
    requires -0x4000 <= x <= 0x4000
    ensures Shl32(x, n) == x * Pow2(n)
    ensures Neg32(Shl32(x, n)) == -(x * Pow2(n))
  {
    Shl32IsLowBits(x, n);
    Pow2Monotone(n, 16);
    Pow2Of16();
    var u := Pow2(n);
    MulBound(x, u);
    var v := x * u;
    assert IsInt32(v);
    assert IsInt32(-v);
  }
}
