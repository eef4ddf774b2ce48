/**
 * The arbitrary-precision numerics the interpreter and the literal parser rely on:
 * java.math.BigInteger's truncating division and decimal text, and java.math.BigDecimal
 * as an unscaled integer with a non-negative scale (value = unscaled * 10^-scale).
 */
module Numbers {
  import opened Wrappers

  function Abs(x: int): nat {
    if x < 0 then -x else x
  }

  function Pow10(n: nat): (r: nat)
    ensures r >= 1
  {
    if n == 0 then 1 else 10 * Pow10(n - 1)
  }

  function Pow2(n: nat): (r: nat)
    ensures r >= 1
  {
    if n == 0 then 1 else 2 * Pow2(n - 1)
  }

  lemma {:induction false} Pow10Add(a: nat, b: nat)
    ensures Pow10(a + b) == Pow10(a) * Pow10(b)
  {
    if a > 0 {
      Pow10Add(a - 1, b);
      assert Pow10(a + b) == 10 * Pow10(a - 1 + b);
      assert 10 * (Pow10(a - 1) * Pow10(b)) == (10 * Pow10(a - 1)) * Pow10(b);
    }
  }

  // ---------------------------------------------------------------------------
  // BigInteger.divide: the quotient is truncated toward zero (unlike Dafny's `/`).

  function TruncDiv(n: int, d: int): (q: int)
    requires d != 0
    ensures q == 0 || (q < 0 <==> (n < 0) != (d < 0))
  {
    var m := Abs(n) / Abs(d);
    QuotientNonNegative(Abs(n), Abs(d));
    if (n < 0) != (d < 0) then -m else m
  }

  lemma QuotientNonNegative(a: nat, b: nat)
    requires b > 0
    ensures a / b >= 0
  {
  }

  /** The quotient and remainder of a truncating division: n == q*d + r, |r| < |d|,
      and a non-zero remainder has the sign of the dividend. */
  lemma TruncDivSpec(n: int, d: int)
    requires d != 0
    ensures var q := TruncDiv(n, d); var r := n - q * d;
      Abs(r) < Abs(d) && (r == 0 || (r < 0 <==> n < 0))
  {
    var a: nat, b: nat := Abs(n), Abs(d);
    var q0: int, r0: int := a / b, a % b;
    var m := q0 * b;
    assert a == m + r0 && 0 <= r0 < b;
    var q := TruncDiv(n, d);
    if (n < 0) != (d < 0) {
      assert q == -q0;
      NegatedProduct(q0, b, d);
    } else {
      assert q == q0;
      SignedProduct(q0, b, d);
    }
    assert q * d == (if n < 0 then -m else m);
  }

  /** q * d for a divisor d of magnitude b, when the quotient keeps its sign. */
  lemma SignedProduct(q: int, b: int, d: int)
    requires b >= 0 && (d == b || d == -b)
    ensures q * d == (if d < 0 then -(q * b) else q * b)
  {
  }

  /** (-q) * d for a divisor d of magnitude b. */
  lemma NegatedProduct(q: int, b: int, d: int)
    requires b >= 0 && (d == b || d == -b)
    ensures (-q) * d == (if d < 0 then q * b else -(q * b))
  {
  }

  lemma TruncDivExamples()
    ensures TruncDiv(7, 2) == 3 && TruncDiv(-7, 2) == -3 && TruncDiv(7, -2) == -3
    ensures -7 / 2 == -4
  {
  }

  // ---------------------------------------------------------------------------
  // Decimal text of integers (BigInteger.toString) and its parser (new BigInteger(String)).

  predicate IsDigit(c: char) {
    '0' <= c <= '9'
  }

  function DigitChar(n: nat): (c: char)
    requires n < 10
    ensures IsDigit(c)
  {
    ['0', '1', '2', '3', '4', '5', '6', '7', '8', '9'][n]
  }

  function DigitValue(c: char): nat
    requires IsDigit(c)
  {
    (c as int - '0' as int) as nat
  }

  lemma DigitRoundTrip(n: nat)
    requires n < 10
    ensures DigitValue(DigitChar(n)) == n
  {
  }

  /** The shortest decimal digits of a natural number. */
  function NatToDigits(n: nat): (s: string)
    ensures |s| >= 1 && forall i :: 0 <= i < |s| ==> IsDigit(s[i])
  {
    if n < 10 then [DigitChar(n)] else NatToDigits(n / 10) + [DigitChar(n % 10)]
  }

  predicate AllDigits(s: string) {
    forall i :: 0 <= i < |s| ==> IsDigit(s[i])
  }

  /** The value of a digit string, read most significant digit first. */
  function DigitsValue(s: string): nat
    requires AllDigits(s)
  {
    if s == [] then 0 else 10 * DigitsValue(s[..|s| - 1]) + DigitValue(s[|s| - 1])
  }

  lemma {:induction false} DigitsRoundTrip(n: nat)
    ensures AllDigits(NatToDigits(n)) && DigitsValue(NatToDigits(n)) == n
  {
    var s := NatToDigits(n);
    if n >= 10 {
      DigitsRoundTrip(n / 10);
      assert s[..|s| - 1] == NatToDigits(n / 10);
      DigitRoundTrip(n % 10);
    } else {
      DigitRoundTrip(n);
    }
  }

  function IntToString(i: int): (s: string)
    ensures |s| >= 1
  {
    if i < 0 then "-" + NatToDigits(-i) else NatToDigits(i)
  }

  /** new BigInteger(s): an optional sign followed by one or more digits. */
  function ParseBigInteger(s: string): (r: Option<int>)
    ensures r.Some? ==> |s| >= 1 && IsDigit(s[|s| - 1])
    ensures r.Some? && r.value < 0 ==> s[0] == '-'
  {
    if |s| >= 1 && (s[0] == '-' || s[0] == '+') then
      var body := s[1..];
      if |body| >= 1 && AllDigits(body) then
        Some(if s[0] == '-' then -(DigitsValue(body) as int) else DigitsValue(body) as int)
      else None
    else if |s| >= 1 && AllDigits(s) then Some(DigitsValue(s) as int)
    else None
  }

  /** Reading back the text of an integer gives the integer. */
  lemma IntegerTextRoundTrip(i: int)
    ensures ParseBigInteger(IntToString(i)) == Some(i)
  {
    var s := IntToString(i);
    if i < 0 {
      var body := NatToDigits(-i);
      DigitsRoundTrip(-i);
      assert s == "-" + body;
      assert s[0] == '-' && s[1..] == body;
    } else {
      DigitsRoundTrip(i);
      assert IsDigit(s[0]);
    }
  }

  // ---------------------------------------------------------------------------
  // BigDecimal: value = unscaled * 10^-scale. Equality of datatype values is
  // BigDecimal.equals (value and scale); numeric comparison ignores the scale.

  datatype Decimal = Decimal(unscaled: int, scale: nat)

  ghost function RealOf(d: Decimal): real {
    d.unscaled as real / Pow10(d.scale) as real
  }

  /** The unscaled value of d at a larger scale s (exact). */
  function Rescale(d: Decimal, s: nat): int
    requires d.scale <= s
  {
    d.unscaled * Pow10(s - d.scale)
  }

  lemma RescaleExact(d: Decimal, s: nat)
    requires d.scale <= s
    ensures Rescale(d, s) as real / Pow10(s) as real == RealOf(d)
  {
    Pow10Add(s - d.scale, d.scale);
    ScaleCancel(d.unscaled, Pow10(s - d.scale), Pow10(d.scale), Pow10(s));
  }

  lemma IntProductAsReal(x: int, y: int)
    ensures (x * y) as real == x as real * y as real
  {
  }

  /** (u * a) / (a * b) == u / b, for positive a and b. */
  lemma ScaleCancel(u: int, a: int, b: int, p: int)
    requires a >= 1 && b >= 1 && p == a * b
    ensures (u * a) as real / p as real == u as real / b as real
  {
    IntProductAsReal(u, a);
    IntProductAsReal(a, b);
    var x := u as real / b as real;
    assert x * b as real == u as real;
    assert x * (a as real * b as real) == u as real * a as real;
  }

  function Max(a: nat, b: nat): nat {
    if a < b then b else a
  }

  /** BigDecimal.add: the scale of the sum is the larger scale. */
  function DecAdd(a: Decimal, b: Decimal): (r: Decimal)
    ensures r.scale == Max(a.scale, b.scale)
  {
    var s := Max(a.scale, b.scale);
    Decimal(Rescale(a, s) + Rescale(b, s), s)
  }

  /** BigDecimal.subtract. */
  function DecSub(a: Decimal, b: Decimal): (r: Decimal)
    ensures r.scale == Max(a.scale, b.scale)
  {
    var s := Max(a.scale, b.scale);
    Decimal(Rescale(a, s) - Rescale(b, s), s)
  }

  /** BigDecimal.multiply: the scale of the product is the sum of the scales. */
  function DecMul(a: Decimal, b: Decimal): (r: Decimal)
    ensures r.scale == a.scale + b.scale
  {
    Decimal(a.unscaled * b.unscaled, a.scale + b.scale)
  }

  lemma DecAddExact(a: Decimal, b: Decimal)
    ensures RealOf(DecAdd(a, b)) == RealOf(a) + RealOf(b)
  {
    var s := Max(a.scale, b.scale);
    RescaleExact(a, s);
    RescaleExact(b, s);
    QuotientSum(Rescale(a, s), Rescale(b, s), Pow10(s));
  }

  lemma DecSubExact(a: Decimal, b: Decimal)
    ensures RealOf(DecSub(a, b)) == RealOf(a) - RealOf(b)
  {
    var s := Max(a.scale, b.scale);
    RescaleExact(a, s);
    RescaleExact(b, s);
    QuotientDifference(Rescale(a, s), Rescale(b, s), Pow10(s));
  }

  /** (x + y) / p == x / p + y / p, for positive p. */
  lemma QuotientSum(x: int, y: int, p: int)
    requires p >= 1
    ensures (x + y) as real / p as real == x as real / p as real + y as real / p as real
  {
    var u, v := x as real / p as real, y as real / p as real;
    assert u * p as real == x as real && v * p as real == y as real;
    assert (u + v) * p as real == (x + y) as real;
  }

  /** (x - y) / p == x / p - y / p, for positive p. */
  lemma QuotientDifference(x: int, y: int, p: int)
    requires p >= 1
    ensures (x - y) as real / p as real == x as real / p as real - y as real / p as real
  {
    var u, v := x as real / p as real, y as real / p as real;
    assert u * p as real == x as real && v * p as real == y as real;
    assert (u - v) * p as real == (x - y) as real;
  }

  lemma DecMulExact(a: Decimal, b: Decimal)
    ensures RealOf(DecMul(a, b)) == RealOf(a) * RealOf(b)
  {
    Pow10Add(a.scale, b.scale);
    QuotientProduct(a.unscaled, Pow10(a.scale), b.unscaled, Pow10(b.scale), Pow10(a.scale + b.scale));
  }

  /** (u * v) / (p * q) == (u / p) * (v / q), for positive p and q. */
  lemma QuotientProduct(u: int, p: int, v: int, q: int, pq: int)
    requires p >= 1 && q >= 1 && pq == p * q
    ensures (u * v) as real / pq as real == (u as real / p as real) * (v as real / q as real)
  {
    IntProductAsReal(u, v);
    IntProductAsReal(p, q);
    var x, y := u as real / p as real, v as real / q as real;
    assert x * p as real == u as real && y * q as real == v as real;
    assert (x * y) * (p as real * q as real) == u as real * v as real;
  }

  function Sign(x: int): int {
    if x < 0 then -1 else if x == 0 then 0 else 1
  }

  /** BigDecimal.compareTo: -1, 0 or 1 by numeric value, ignoring the scale. */
  function DecCompare(a: Decimal, b: Decimal): (c: int)
    ensures -1 <= c <= 1 && (a == b ==> c == 0)
  {
    var s := Max(a.scale, b.scale);
    Sign(Rescale(a, s) - Rescale(b, s))
  }

  lemma DecCompareValue(a: Decimal, b: Decimal)
    ensures DecCompare(a, b) < 0 <==> RealOf(a) < RealOf(b)
    ensures DecCompare(a, b) == 0 <==> RealOf(a) == RealOf(b)
  {
    var s := Max(a.scale, b.scale);
    RescaleExact(a, s);
    RescaleExact(b, s);
    var p := Pow10(s) as real;
    DivMonotone(Rescale(a, s) as real, Rescale(b, s) as real, p);
  }

  lemma DivMonotone(x: real, y: real, p: real)
    requires p > 0.0
    ensures x < y <==> x / p < y / p
    ensures x == y <==> x / p == y / p
  {
    if x / p == y / p {
      assert x == (x / p) * p && y == (y / p) * p;
    }
  }

  /** compareTo(BigDecimal.ZERO) == 0: any scale of zero. */
  predicate DecIsZero(d: Decimal) {
    d.unscaled == 0
  }

  lemma DecIsZeroValue(d: Decimal)
    ensures DecIsZero(d) <==> DecCompare(d, Decimal(0, 0)) == 0
  {
  }

  /** The integer nearest to n/d, ties going to the even neighbour (RoundingMode.HALF_EVEN). */
  function RoundHalfEven(n: int, d: int): (q: int)
    requires d != 0
    ensures Abs(q - TruncDiv(n, d)) <= 1
  {
    var q := TruncDiv(n, d);
    var twice := 2 * Abs(n - q * d);
    var away := if (n < 0) != (d < 0) then q - 1 else q + 1;
    if twice > Abs(d) || (twice == Abs(d) && q % 2 != 0) then away else q
  }

  /** The rounded quotient is within half a unit of n/d (so |R*d - n| <= |d|/2),
      and on an exact tie it is even. */
  lemma RoundHalfEvenNearest(n: int, d: int)
    requires d != 0
    ensures 2 * Abs(RoundHalfEven(n, d) * d - n) <= Abs(d)
    ensures 2 * Abs(RoundHalfEven(n, d) * d - n) == Abs(d) ==> RoundHalfEven(n, d) % 2 == 0
  {
    TruncDivSpec(n, d);
    var q := TruncDiv(n, d);
    var r := n - q * d;
    var R := RoundHalfEven(n, d);
    NeighbourProducts(q, d);
    if R != q {
      // moving one step away from zero changes the error from r to r -/+ d
      if (n < 0) != (d < 0) {
        assert R == q - 1;
        assert R * d - n == -d - r;
      } else {
        assert R == q + 1;
        assert R * d - n == d - r;
      }
      assert r == 0 || (r < 0 <==> n < 0);
    } else {
      assert R * d - n == -r;
    }
  }

  lemma NeighbourProducts(q: int, d: int)
    ensures (q + 1) * d == q * d + d && (q - 1) * d == q * d - d
  {
  }

  /** BigDecimal.divide(divisor, HALF_EVEN): the quotient keeps the dividend's scale. */
  function DecDiv(a: Decimal, b: Decimal): (r: Decimal)
    requires !DecIsZero(b)
    ensures r.scale == a.scale
  {
    Decimal(RoundHalfEven(a.unscaled * Pow10(b.scale), b.unscaled), a.scale)
  }

  // ---------------------------------------------------------------------------
  // BigDecimal.toString and new BigDecimal(String).

  function Zeros(n: nat): (s: string)
    ensures |s| == n
  {
    if n == 0 then "" else "0" + Zeros(n - 1)
  }

  /** BigDecimal.toString: plain notation when the adjusted exponent is at least -6,
      scientific notation ("1.23E-8") otherwise. */
  function DecToString(d: Decimal): (s: string)
    ensures |s| >= 1 && (s[0] == '-' <==> d.unscaled < 0)
  {
    var coeff := NatToDigits(Abs(d.unscaled));
    var sign := if d.unscaled < 0 then "-" else "";
    var adjusted := (|coeff| - 1) - d.scale;
    if d.scale == 0 then sign + coeff
    else if adjusted >= -6 then
      if |coeff| > d.scale then
        sign + coeff[..|coeff| - d.scale] + "." + coeff[|coeff| - d.scale..]
      else
        sign + "0." + Zeros(d.scale - |coeff|) + coeff
    else
      var mantissa := if |coeff| > 1 then coeff[..1] + "." + coeff[1..] else coeff;
      sign + mantissa + "E" + IntToString(adjusted)
  }

  /** new BigDecimal(s) for texts without an exponent: an optional sign, digits with at
      most one '.', and at least one digit on either side of it. */
  function ParseBigDecimal(s: string): (r: Option<Decimal>)
    ensures r.Some? ==> r.value.scale < |s|
    ensures r.Some? && r.value.unscaled < 0 ==> s[0] == '-'
  {
    var neg := |s| >= 1 && s[0] == '-';
    var body := if |s| >= 1 && (s[0] == '-' || s[0] == '+') then s[1..] else s;
    var dot := DotIndex(body);
    var whole := if dot < |body| then body[..dot] else body;
    var frac := if dot < |body| then body[dot + 1..] else "";
    if AllDigits(whole) && AllDigits(frac) && |whole| + |frac| >= 1 then
      var u := DigitsValue(whole + frac) as int;
      Some(Decimal(if neg then -u else u, |frac|))
    else None
  }

  /** The index of the first '.', or |s| when there is none. */
  function DotIndex(s: string): (k: nat)
    ensures k <= |s| && (k < |s| ==> s[k] == '.')
    ensures forall i :: 0 <= i < k ==> s[i] != '.'
  {
    if s == [] then 0 else if s[0] == '.' then 0 else 1 + DotIndex(s[1..])
  }

  /** A sign, a '.', and the fraction's length as the scale: "+1.50" is 150 at scale 2. */
  lemma ParseBigDecimalExample()
    ensures ParseBigDecimal("+1.50") == Some(Decimal(150, 2))
  {
    var body := "+1.50"[1..];
    assert body == "1.50";
    assert DotIndex(body) == 1;
    var whole, frac := body[..1], body[2..];
    assert whole == "1" && frac == "50";
    assert AllDigits(whole) && AllDigits(frac);
    assert whole + frac == "150";
    assert DigitsValue("150") == 150 by {
      assert "150"[..2] == "15";
      assert "15"[..1] == "1";
    }
  }

  /** A trailing '.' leaves an empty fraction: "1." is 1 at scale 0. */
  lemma ParseBigDecimalTrailingDot()
    ensures ParseBigDecimal("1.") == Some(Decimal(1, 0))
  {
    var dot := DotIndex("1.");
    assert dot == 1;
    var whole, frac := "1."[..dot], "1."[dot + 1..];
    assert whole == "1" && frac == "";
    assert AllDigits(whole) && AllDigits(frac);
    assert whole + frac == "1";
    assert DigitsValue("1") == 1 by {
      assert "1"[..0] == "";
    }
  }

  /** A '.' with no digit on either side is refused. */
  lemma ParseBigDecimalLoneDot()
    ensures ParseBigDecimal(".") == None
  {
    assert DotIndex(".") == 0;
    assert "."[..0] == "" && "."[1..] == "";
  }

  /** doubleValue() is infinite: |value| reaches the point halfway between Double.MAX_VALUE
      and 2^1024, from which round-to-nearest-even gives infinity. */
  predicate DoubleOverflows(d: Decimal) {
    Abs(d.unscaled) >= (Pow2(1024) - Pow2(970)) * Pow10(d.scale)
  }
}
