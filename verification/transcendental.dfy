/**
 * The transcendental functions the calculators use, kept abstract.
 *
 * The engine calls `math.tan(math.radians(x))` and `math.exp(x)`. Their
 * numeric values are not modelled; instead every calculator takes a
 * `Transcendentals` record and the properties are proved for EVERY record
 * that satisfies `Valid`, the handful of facts about tangent and exponential
 * the geotechnical formulas rely on.
 */
module Transcendental {

  /** `math.pi` as the double-precision literal Python uses. */
  const Pi: real := 3.141592653589793

  /**
   * `tanDeg(x)` is the tangent of an angle of `x` DEGREES, i.e. the Python code's
   * `math.tan(math.radians(x))`; `exp` is `math.exp`.
   */
  datatype Transcendentals = Transcendentals(tanDeg: real -> real, exp: real -> real)

  /** The facts about tangent (in degrees) and exponential that the model assumes. */
  ghost predicate Valid(t: Transcendentals) {
    && t.tanDeg(0.0) == 0.0
    && t.tanDeg(45.0) == 1.0
    // non-negative and strictly increasing on [0, 90)
    && (forall x :: 0.0 <= x < 90.0 ==> 0.0 <= t.tanDeg(x))
    && (forall x, y :: 0.0 <= x < y < 90.0 ==> TanOrdered(t, x, y))
    && t.exp(0.0) == 1.0
    && (forall x :: 0.0 <= x ==> 1.0 <= t.exp(x))
  }

  /**
   * tan x < tan y, named so that the monotonicity in `Valid` is used only
   * where a proof asks for it.
   */
  ghost predicate TanOrdered(t: Transcendentals, x: real, y: real) {
    t.tanDeg(x) < t.tanDeg(y)
  }

  /**
   * Complementary angles have reciprocal tangents: tan(45 - u) tan(45 + u) == 1.
   * Kept apart from `Valid` because only the Rankine coefficients need it.
   */
  ghost predicate Complementary(t: Transcendentals) {
    forall a, b :: 0.0 < a < 90.0 && a + b == 90.0 ==> t.tanDeg(a) * t.tanDeg(b) == 1.0
  }

  function Square(x: real): (r: real)
    ensures 0.0 <= r
  {
    x * x
  }

  /** A rational stand-in for tangent in degrees: x / (90 - x) below 90. */
  function WitnessTan(x: real): real {
    if x < 90.0 then x / (90.0 - x) else 0.0
  }

  /** A stand-in for the exponential that is 1 at 0 and at least 1 above it. */
  function WitnessExp(x: real): real {
    if 0.0 <= x then 1.0 + x else 1.0
  }

  function Witness(): Transcendentals {
    Transcendentals(WitnessTan, WitnessExp)
  }

  /** The assumptions are consistent: the rational stand-ins satisfy all of them. */
  lemma WitnessIsValid()
    ensures Valid(Witness())
    ensures Complementary(Witness())
  {
    WitnessTanNonNegative();
    WitnessTanOrdered();
    WitnessComplementary();
    assert WitnessTan(45.0) == 1.0;
  }

  lemma WitnessTanNonNegative()
    ensures forall x :: 0.0 <= x < 90.0 ==> 0.0 <= Witness().tanDeg(x)
  {
    forall x | 0.0 <= x < 90.0
      ensures 0.0 <= WitnessTan(x)
    {
      DivNonNegative(x, 90.0 - x);
    }
  }

  lemma WitnessTanOrdered()
    ensures forall x, y :: 0.0 <= x < y < 90.0 ==> TanOrdered(Witness(), x, y)
  {
    forall x, y | 0.0 <= x < y < 90.0
      ensures TanOrdered(Witness(), x, y)
    {
      WitnessTanIncreasing(x, y);
    }
  }

  lemma WitnessComplementary()
    ensures Complementary(Witness())
  {
    forall a, b | 0.0 < a < 90.0 && a + b == 90.0
      ensures WitnessTan(a) * WitnessTan(b) == 1.0
    {
      WitnessTanComplement(a, b);
    }
  }

  lemma WitnessTanIncreasing(x: real, y: real)
    requires 0.0 <= x < y < 90.0
    ensures WitnessTan(x) < WitnessTan(y)
  {
    assert x * (90.0 - y) < y * (90.0 - x);
    DivLess(x, 90.0 - x, y, 90.0 - y);
  }

  lemma WitnessTanComplement(a: real, b: real)
    requires 0.0 < a < 90.0 && a + b == 90.0
    ensures WitnessTan(a) * WitnessTan(b) == 1.0
  {
    assert WitnessTan(a) == a / b;
    assert WitnessTan(b) == b / a;
    assert (a / b) * (b / a) == (a * b) / (a * b);
  }

  lemma DivNonNegative(p: real, q: real)
    requires 0.0 <= p && 0.0 < q
    ensures 0.0 <= p / q
  {
  }

  lemma DivLess(p: real, q: real, r: real, s: real)
    requires 0.0 < q && 0.0 < s && p * s < r * q
    ensures p / q < r / s
  {
    assert p / q == (p * s) / (q * s);
    assert r / s == (r * q) / (q * s);
  }

  /** What `Valid` gives at a single angle in [0, 90). */
  lemma TanFacts(t: Transcendentals, x: real)
    requires Valid(t) && 0.0 <= x < 90.0
    ensures 0.0 <= t.tanDeg(x)
    ensures 0.0 < x ==> 0.0 < t.tanDeg(x)
    ensures x < 45.0 ==> t.tanDeg(x) < 1.0
    ensures 45.0 <= x ==> 1.0 <= t.tanDeg(x)
    ensures 45.0 < x ==> 1.0 < t.tanDeg(x)
  {
    if 0.0 < x {
      TanIncreasing(t, 0.0, x);
    }
    if x < 45.0 {
      TanIncreasing(t, x, 45.0);
    } else if 45.0 < x {
      TanIncreasing(t, 45.0, x);
    }
  }

  /** The monotonicity assumed in `Valid`, at two given angles. */
  lemma TanIncreasing(t: Transcendentals, x: real, y: real)
    requires Valid(t) && 0.0 <= x < y < 90.0
    ensures t.tanDeg(x) < t.tanDeg(y)
  {
    assert TanOrdered(t, x, y);
  }

  /** The exponential of a non-negative argument is at least 1. */
  lemma ExpFacts(t: Transcendentals, x: real)
    requires Valid(t) && 0.0 <= x
    ensures 1.0 <= t.exp(x)
  {
  }

  lemma MulAtLeastOne(a: real, b: real)
    requires 1.0 <= a && 1.0 <= b
    ensures 1.0 <= a * b
    ensures 1.0 < b ==> 1.0 < a * b
  {
    assert a * b - 1.0 == a * (b - 1.0) + (a - 1.0);
  }

  lemma SquareLess(a: real, b: real)
    requires 0.0 <= a < b
    ensures Square(a) < Square(b)
  {
    assert b * b - a * a == (b - a) * (b + a);
    MulPositive(b - a, b + a);
    assert a * a < b * b;
    assert Square(a) == a * a && Square(b) == b * b;
  }

  lemma MulPositive(x: real, y: real)
    requires 0.0 < x && 0.0 < y
    ensures 0.0 < x * y
  {
  }
}
