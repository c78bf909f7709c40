/** Satoshi amounts: IEEE 754 binary64 values held as reals, and the conversions of pkg/node/types.go. */
module Amounts {

  /** 2 to the power k, for any sign of k. */
  function Pow2(k: int): (p: real)
    ensures p > 0.0
    decreases if k < 0 then -k else k
  {
    if k == 0 then 1.0 else if k > 0 then 2.0 * Pow2(k - 1) else Pow2(k + 1) / 2.0
  }

  lemma {:induction false} Pow2Step(k: int)
    ensures Pow2(k + 1) == 2.0 * Pow2(k)
  {
  }

  lemma {:induction false} Pow2Monotone(j: int, k: int)
    requires j <= k
    ensures Pow2(j) <= Pow2(k)
    decreases k - j
  {
    if j < k {
      Pow2Monotone(j, k - 1);
      Pow2Step(k - 1);
    }
  }

  function IntPow2(n: nat): (p: int)
    ensures p > 0
  {
    if n == 0 then 1 else 2 * IntPow2(n - 1)
  }

  /** An integer multiple. */
  function Scaled(n: int, u: real): real
  {
    n as real * u
  }

  lemma {:induction false} Pow2Shift(k: int, n: nat)
    ensures Pow2(k + n) == Scaled(IntPow2(n), Pow2(k))
  {
    if n > 0 {
      Pow2Shift(k, n - 1);
      Pow2Step(k + n - 1);
      assert IntPow2(n) == 2 * IntPow2(n - 1);
      hide *;
      Doubled(Pow2(k + n), Pow2(k + n - 1), IntPow2(n - 1), IntPow2(n), Pow2(k));
    }
  }

  lemma Doubled(a: real, b: real, i: int, j: int, p: real)
    requires a == 2.0 * b && b == Scaled(i, p) && j == 2 * i
    ensures a == Scaled(j, p)
  {
  }

  /** The binade of x: the exponent e with 2^e <= x < 2^(e+1). */
  function Exponent(x: real): (e: int)
    requires x > 0.0
    ensures Pow2(e) <= x < Pow2(e + 1)
    decreases if x < 1.0 then (1.0 / x).Floor + 1 else x.Floor
  {
    if x >= 2.0 then
      var e := Exponent(x / 2.0);
      Pow2Step(e); Pow2Step(e + 1);
      e + 1
    else if x < 1.0 then
      HalvingShrinks(x);
      var e := Exponent(2.0 * x);
      Pow2Step(e - 1); Pow2Step(e);
      e - 1
    else
      0
  }

  lemma HalvingShrinks(x: real)
    requires 0.0 < x < 1.0
    ensures 1.0 / x > 1.0
    ensures 2.0 * x < 1.0 ==> (1.0 / (2.0 * x)).Floor < (1.0 / x).Floor
  {
    var y := 1.0 / x;
    assert y * x == 1.0;
    assert y > 1.0;
    if 2.0 * x < 1.0 {
      assert 1.0 / (2.0 * x) == y / 2.0;
      assert y > 2.0;
    }
  }

  /** Distance between neighbouring doubles at x: 53 significant bits, subnormals down to 2^-1074. */
  function UlpExponent(x: real): int
    requires x > 0.0
  {
    var e := Exponent(x) - 52;
    if e < -1074 then -1074 else e
  }

  /** Round to the nearest integer, ties to even. */
  function RoundTiesToEven(y: real): (n: int)
    ensures -0.5 <= n as real - y <= 0.5
  {
    var f := y.Floor;
    var d := y - f as real;
    if d < 0.5 then f else if d > 0.5 then f + 1 else if f % 2 == 0 then f else f + 1
  }

  /** The multiple of u nearest to x. */
  function RoundToMultiple(x: real, u: real): real
    requires u > 0.0
  {
    RoundTiesToEven(x / u) as real * u
  }

  /** roundTiesToEven of section 4.3.1 of IEEE 754-2008, for values below the overflow threshold. */
  function RoundToDouble(x: real): real
    decreases x < 0.0
  {
    if x == 0.0 then 0.0
    else if x < 0.0 then -RoundToDouble(-x)
    else RoundToMultiple(x, Pow2(UlpExponent(x)))
  }

  /** A finite binary64 value: at most 53 significant bits times a power of two from 2^-1074 to 2^971. */
  ghost predicate IsDouble(d: real)
  {
    exists m: int, e: int :: DoubleParts(d, m, e)
  }

  ghost predicate DoubleParts(d: real, m: int, e: int)
  {
    -0x20_0000_0000_0000 < m < 0x20_0000_0000_0000 && -1074 <= e <= 971 && d == m as real * Pow2(e)
  }

  function Abs(x: real): real { if x < 0.0 then -x else x }

  /** math.Round: nearest integer, halves away from zero. */
  function MathRound(x: real): int
  {
    if x >= 0.0 then (x + 0.5).Floor else -((0.5 - x).Floor)
  }

  /** int(math.Round(f * 1e8)), the product being rounded to a double. */
  function Satoshis(f: real): int
  {
    MathRound(RoundToDouble(f * 100000000.0))
  }

  /** The double that decoding the JSON number v / 10^8 yields. */
  function JsonAmount(v: int): real
  {
    RoundToDouble(v as real / 100000000.0)
  }

  // ---- Rounding is correct -------------------------------------------------------------

  lemma NearestInteger(y: real, k: int)
    ensures k < RoundTiesToEven(y) ==> k as real + RoundTiesToEven(y) as real <= 2.0 * y
    ensures k > RoundTiesToEven(y) ==> k as real + RoundTiesToEven(y) as real >= 2.0 * y
  {
  }

  lemma NonNegativeProduct(a: real, b: real)
    requires a >= 0.0 && b >= 0.0
    ensures a * b >= 0.0
  {
  }

  /** Rounding x = y * u to a multiple of u misses by at most half a unit. */
  lemma WithinHalfUnit(x: real, y: real, n: real, u: real)
    requires y - 0.5 <= n <= y + 0.5 && u > 0.0 && y * u == x
    ensures -0.5 * u <= n * u - x <= 0.5 * u
  {
    NonNegativeProduct(y + 0.5 - n, u);
    NonNegativeProduct(n - y + 0.5, u);
  }

  lemma WithinHalf(x: real, u: real)
    requires u > 0.0
    ensures -0.5 * u <= RoundToMultiple(x, u) - x <= 0.5 * u
  {
    WithinHalfUnit(x, x / u, RoundTiesToEven(x / u) as real, u);
  }

  /** The integer n is as near to y as z is, so n units are as near to x = y * u as z units. */
  lemma NearerInUnits(x: real, y: real, n: real, z: real, u: real)
    requires n == z || (z <= n && n + z <= 2.0 * y) || (z >= n && n + z >= 2.0 * y)
    requires u > 0.0 && y * u == x
    ensures Abs(n * u - x) <= Abs(z * u - x)
  {
    if n == z {
      assert n * u == z * u;
    } else if z <= n && n + z <= 2.0 * y {
      NonNegativeProduct(n - z, u);
      NonNegativeProduct(2.0 * y - n - z, u);
    } else {
      NonNegativeProduct(z - n, u);
      NonNegativeProduct(n + z - 2.0 * y, u);
    }
  }

  lemma NearestInUnits(x: real, y: real, k: int, u: real)
    requires u > 0.0 && y * u == x
    ensures Abs(RoundTiesToEven(y) as real * u - x) <= Abs(k as real * u - x)
  {
    NearestInteger(y, k);
    NearerInUnits(x, y, RoundTiesToEven(y) as real, k as real, u);
  }

  /** No multiple of the unit is nearer than the rounded value. */
  lemma NearestMultiple(x: real, u: real, k: int)
    requires u > 0.0
    ensures Abs(RoundToMultiple(x, u) - x) <= Abs(k as real * u - x)
  {
    NearestInUnits(x, x / u, k, u);
  }

  lemma {:induction false} IntPow2Of52()
    ensures IntPow2(52) == 0x10_0000_0000_0000
  {
    assert IntPow2(8) == 0x100;
    assert IntPow2(12) == 0x1000;
    assert IntPow2(16) == 0x1_0000;
    assert IntPow2(20) == 0x10_0000;
    assert IntPow2(24) == 0x100_0000;
    assert IntPow2(28) == 0x1000_0000;
    assert IntPow2(32) == 0x1_0000_0000;
    assert IntPow2(36) == 0x10_0000_0000;
    assert IntPow2(40) == 0x100_0000_0000;
    assert IntPow2(44) == 0x1000_0000_0000;
    assert IntPow2(48) == 0x1_0000_0000_0000;
  }

  /** 2^(u + 52), the bottom of the binade with ulp 2^u, in ulps. */
  lemma BottomInUlps(u: int)
    ensures 4503599627370496.0 * Pow2(u) == Pow2(u + 52)
  {
    var n: nat := 52;
    Pow2Shift(u, n);
    IntPow2Of52();
  }

  lemma SmallProduct(m: real, p: real, q: real)
    requires m <= 9007199254740991.0 && 0.0 < p <= q
    ensures m * p < 9007199254740992.0 * q
  {
    NonNegativeProduct(9007199254740991.0 - m, p);
  }

  /** A double with exponent below u is smaller than 2^(u + 52). */
  lemma SmallExponentSmallValue(d: real, m: int, e: int, u: int)
    requires DoubleParts(d, m, e) && e < u
    ensures d < Pow2(u + 52)
  {
    var q := Pow2(u - 1);
    Pow2Monotone(e, u - 1);
    SmallProduct(m as real, Pow2(e), q);
    assert 9007199254740992.0 * q == Pow2(u + 52) by {
      Pow2Step(u - 1);
      BottomInUlps(u);
    }
  }

  /** A double with exponent u or more is a multiple of 2^u. */
  lemma LargeExponentMultiple(d: real, m: int, e: int, u: int) returns (k: int)
    requires DoubleParts(d, m, e) && e >= u
    ensures d == Scaled(k, Pow2(u))
  {
    Pow2Shift(u, e - u);
    k := Product(m, IntPow2(e - u));
    assert d == Scaled(m, Pow2(e));
    hide *;
    Factored(d, m, IntPow2(e - u), Pow2(e), Pow2(u));
  }

  function Product(a: int, b: int): int { a * b }

  lemma IntProduct(a: int, b: int)
    ensures (a * b) as real == a as real * b as real
  {
  }

  lemma Factored(d: real, m: int, q: int, x: real, p: real)
    requires d == Scaled(m, x) && x == Scaled(q, p)
    ensures d == Scaled(Product(m, q), p)
  {
    IntProduct(m, q);
    MulAssoc(m as real, q as real, p);
  }

  lemma MulAssoc(a: real, b: real, c: real)
    ensures a * (b * c) == (a * b) * c
  {
  }

  lemma NearerThanMultiple(x: real, u: real, k: int, d: real)
    requires u > 0.0 && (k as real * u == d || d <= k as real * u <= x)
    ensures Abs(RoundToMultiple(x, u) - x) <= Abs(d - x)
  {
    NearestMultiple(x, u, k);
  }

  /** No double is nearer to x than the nearest multiple of the ulp of the binade of x. */
  lemma NearestInBinade(x: real, u: int, d: real, m: int, f: int)
    requires DoubleParts(d, m, f) && (f >= u || Pow2(u + 52) <= x)
    ensures Abs(RoundToMultiple(x, Pow2(u)) - x) <= Abs(d - x)
  {
    var k;
    if f >= u {
      k := LargeExponentMultiple(d, m, f, u);
    } else {
      // The bottom of the binade lies between d and x and is itself a multiple of the ulp.
      SmallExponentSmallValue(d, m, f, u);
      BottomInUlps(u);
      k := 0x10_0000_0000_0000;
    }
    NearerThanMultiple(x, Pow2(u), k, d);
  }

  /** Correct rounding: no double is nearer to x than RoundToDouble(x). */
  lemma RoundToDoubleIsNearest(x: real, d: real)
    requires x >= 0.0 && IsDouble(d)
    ensures Abs(RoundToDouble(x) - x) <= Abs(d - x)
  {
    if x > 0.0 {
      var m: int, f: int :| DoubleParts(d, m, f);
      NearestInBinade(x, UlpExponent(x), d, m, f);
    }
  }

  lemma Quotient(x: real, q: real)
    requires x >= 0.0 && q > 0.0
    ensures x / q >= 0.0 && x / q * q == x
  {
  }

  lemma QuotientBelow(x: real, c: real, q: real)
    requires x >= 0.0 && q > 0.0 && x < c * q
    ensures x / q < c
  {
    Quotient(x, q);
    if x / q >= c {
      NonNegativeProduct(x / q - c, q);
      assert false;
    }
  }

  lemma RoundedBelow(y: real, n: int)
    requires 0.0 <= y < 9007199254740992.0 && -0.5 <= n as real - y <= 0.5
    ensures 0 <= n <= 0x20_0000_0000_0000 && (y < 9007199254740991.5 ==> n < 0x20_0000_0000_0000)
  {
  }

  /** At most 53 significant bits, unless the rounding carried into the next binade. */
  lemma RoundedParts(n: int, u: int)
    requires 0 <= n <= 0x20_0000_0000_0000 && -1074 <= u <= 971 && (u == 971 ==> n < 0x20_0000_0000_0000)
    ensures IsDouble(n as real * Pow2(u))
  {
    if n == 0x20_0000_0000_0000 {
      Pow2Step(u);
      assert DoubleParts(n as real * Pow2(u), 0x10_0000_0000_0000, u + 1);
    } else {
      assert DoubleParts(n as real * Pow2(u), n, u);
    }
  }

  /** The least value that rounds to infinity: half an ulp above the greatest double. */
  function Overflow(): real
  {
    9007199254740991.5 * Pow2(971)
  }

  lemma ExponentBelow(x: real, k: int)
    requires 0.0 < x < Pow2(k)
    ensures Exponent(x) < k
  {
    if Exponent(x) >= k {
      Pow2Monotone(k, Exponent(x));
      assert false;
    }
  }

  /** 2^(u + 53), the top of the binade with ulp 2^u, in ulps. */
  lemma TopInUlps(u: int)
    ensures 9007199254740992.0 * Pow2(u) == Pow2(u + 53)
  {
    BottomInUlps(u + 1);
    Pow2Step(u);
    hide Pow2;
    assert 4503599627370496.0 * (2.0 * Pow2(u)) == 9007199254740992.0 * Pow2(u);
  }

  lemma UlpBelowOverflow(x: real)
    requires 0.0 < x < Overflow()
    ensures UlpExponent(x) <= 971
  {
    TopInUlps(971);
    hide Pow2;
    assert x < Pow2(1024);
    ExponentBelow(x, 1024);
  }

  /** Below the overflow threshold rounding yields a finite double. */
  lemma RoundToDoubleIsDouble(x: real)
    requires 0.0 <= x < Overflow()
    ensures IsDouble(RoundToDouble(x))
  {
    if x == 0.0 {
      assert DoubleParts(0.0, 0, 0);
    } else {
      UlpBelowOverflow(x);
      hide Pow2, IsDouble, RoundToMultiple, Overflow;
      var u := UlpExponent(x);
      Pow2Monotone(Exponent(x) + 1, u + 53);
      MultipleIsDouble(x, u);
    }
  }

  lemma MultipleIsDouble(x: real, u: int)
    requires 0.0 <= x < Pow2(u + 53) && -1074 <= u <= 971 && x < Overflow()
    ensures IsDouble(RoundToMultiple(x, Pow2(u)))
  {
    hide Pow2, IsDouble, RoundTiesToEven;
    TopInUlps(u);
    Quotient(x, Pow2(u));
    QuotientBelow(x, 9007199254740992.0, Pow2(u));
    if u == 971 {
      QuotientBelow(x, 9007199254740991.5, Pow2(971));
    }
    var n := RoundTiesToEven(x / Pow2(u));
    RoundedBelow(x / Pow2(u), n);
    RoundedParts(n, u);
    assert RoundToMultiple(x, Pow2(u)) == n as real * Pow2(u);
  }

  lemma ExponentAtLeast(x: real, k: int)
    requires x > 0.0 && x >= Pow2(k)
    ensures Exponent(x) >= k
  {
    if Exponent(x) < k {
      Pow2Monotone(Exponent(x) + 1, k);
      assert false;
    }
  }

  lemma RelativeErrorAt(x: real, r: real, u: int)
    requires Pow2(u + 52) <= x && -0.5 * Pow2(u) <= r - x <= 0.5 * Pow2(u)
    ensures -x <= (r - x) * 9007199254740992.0 <= x
  {
    BottomInUlps(u);
  }

  /** Relative error at most 2^-53 above the subnormal range. */
  lemma RelativeError(x: real)
    requires x > 0.0 && Exponent(x) >= -1022
    ensures -x <= (RoundToDouble(x) - x) * 9007199254740992.0 <= x
  {
    WithinHalf(x, Pow2(UlpExponent(x)));
    RelativeErrorAt(x, RoundToDouble(x), UlpExponent(x));
  }

  // ---- Amount exactness ----------------------------------------------------------------

  lemma {:induction false} OneSatoshi()
    ensures 100000000.0 * Pow2(-27) <= 1.0
  {
    assert Pow2(-4) == 1.0 / 16.0;
    assert Pow2(-8) == 1.0 / 256.0;
    assert Pow2(-12) == 1.0 / 4096.0;
    assert Pow2(-16) == 1.0 / 65536.0;
    assert Pow2(-20) == 1.0 / 1048576.0;
    assert Pow2(-24) == 1.0 / 16777216.0;
    assert Pow2(-27) == 1.0 / 134217728.0;
  }

  /** Two roundings of relative error 2^-53 move an integer below 2^51 by less than one half. */
  lemma TwoRoundings(v: real, x: real, f: real, p: real)
    requires 1.0 <= v <= 2251799813685247.0 && x * 100000000.0 == v
    requires -x <= (f - x) * 9007199254740992.0 <= x
    requires -f * 100000000.0 <= (p - f * 100000000.0) * 9007199254740992.0 <= f * 100000000.0
    ensures v - 0.5 < p < v + 0.5
  {
  }

  /** A double within relative error 2^-53 of v / 10^8 converts to v. */
  lemma SatoshisNear(v: int, x: real, f: real)
    requires 1 <= v < 0x8_0000_0000_0000 && x * 100000000.0 == v as real
    requires -x <= (f - x) * 9007199254740992.0 <= x
    ensures Satoshis(f) == v
  {
    var y := f * 100000000.0;
    assert y >= 0.5;
    assert Pow2(-1) == 0.5;
    ExponentAtLeast(y, -1);
    RelativeError(y);
    TwoRoundings(v as real, x, f, RoundToDouble(y));
  }

  /** Decoding v / 10^8 and converting back returns v, for every v below 2^51 satoshis. */
  lemma SatoshisExact(v: int)
    requires 0 <= v < 0x8_0000_0000_0000
    ensures Satoshis(JsonAmount(v)) == v
  {
    if v > 0 {
      var x := v as real / 100000000.0;
      OneSatoshi();
      ExponentAtLeast(x, -27);
      RelativeError(x);
      SatoshisNear(v, x, RoundToDouble(x));
    }
  }

  /** The money supply, 21 million coins, lies within the exact range. */
  lemma SupplyIsExact(v: int)
    requires 0 <= v <= 2100000000000000
    ensures Satoshis(JsonAmount(v)) == v
  {
    SatoshisExact(v);
  }
}
