/**
 * The soil record every calculator consumes, and the bearing-capacity factor
 * Nq that the shallow-footing and the pile end-bearing formulas share
 * (app.py computes it twice, with the same expression).
 */
module Soils {
  import opened Transcendental

  /** Unit weight (kN/m3), cohesion (kPa) and friction angle (degrees). */
  datatype Soil = Soil(unitWeight: real, cohesion: real, frictionAngle: real)

  /**
   * The friction angles the formulas are defined for: the input form admits
   * 0..45 degrees, and the tangent is singular at 90.
   */
  predicate AngleInRange(phi: real) {
    0.0 <= phi < 90.0
  }

  /** Nq = exp(pi tan phi) tan^2(45 + phi/2). */
  function Nq(t: Transcendentals, phi: real): (nq: real)
    requires Valid(t) && AngleInRange(phi)
    ensures 1.0 <= nq
    ensures phi == 0.0 ==> nq == 1.0
    ensures 0.0 < phi ==> 1.0 < nq
  {
    NqBounds(t, phi);
    t.exp(Pi * t.tanDeg(phi)) * Square(t.tanDeg(45.0 + phi / 2.0))
  }

  lemma NqBounds(t: Transcendentals, phi: real)
    requires Valid(t) && AngleInRange(phi)
    ensures var e := t.exp(Pi * t.tanDeg(phi));
            var s := Square(t.tanDeg(45.0 + phi / 2.0));
            && 1.0 <= e * s
            && (phi == 0.0 ==> e * s == 1.0)
            && (0.0 < phi ==> 1.0 < e * s)
  {
    var tp := t.tanDeg(phi);
    TanFacts(t, phi);
    ExpFacts(t, Pi * tp);
    var u := t.tanDeg(45.0 + phi / 2.0);
    TanFacts(t, 45.0 + phi / 2.0);
    MulAtLeastOne(u, u);
    MulAtLeastOne(t.exp(Pi * tp), Square(u));
  }
}
