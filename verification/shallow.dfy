/**
 * ShallowFoundationCalculator: Terzaghi bearing-capacity factors, the
 * ultimate and allowable bearing capacity of a footing, and the pressure the
 * applied load exerts on it.
 */
module Shallow {
  import opened Transcendental
  import opened Soils

  /** Width B, length L, embedment depth Df (m) and applied load (kN). */
  datatype Footing = Footing(width: real, length: real, depth: real, load: real)

  datatype Factors = Factors(nc: real, nq: real, ngamma: real)

  /** The factor of safety `calculate_allowable_bearing_capacity` defaults to. */
  const DefaultFactorOfSafety: real := 3.0

  /**
   * Nc is (Nq - 1) / tan(phi), except that a frictionless soil takes the
   * cohesive limit 5.14 literally; Ngamma is 2 (Nq + 1) tan(phi).
   */
  function BearingFactors(t: Transcendentals, phi: real): (f: Factors)
    requires Valid(t) && AngleInRange(phi)
    ensures f.nq == Nq(t, phi)
    ensures phi == 0.0 ==> f == Factors(5.14, 1.0, 0.0)
    ensures 0.0 < phi ==> f.nc * t.tanDeg(phi) == f.nq - 1.0
    ensures 0.0 < f.nc && 0.0 <= f.ngamma
    ensures 0.0 < phi ==> 4.0 * t.tanDeg(phi) < f.ngamma
  {
    TanFacts(t, phi);
    var nq := Nq(t, phi);
    var nc := if phi > 0.0 then (nq - 1.0) / t.tanDeg(phi) else 5.14;
    var ngamma := 2.0 * (nq + 1.0) * t.tanDeg(phi);
    FactorSigns(nq, t.tanDeg(phi), phi > 0.0);
    Factors(nc, nq, ngamma)
  }

  lemma FactorSigns(nq: real, tp: real, positive: bool)
    requires 1.0 <= nq && 0.0 <= tp
    requires positive ==> 1.0 < nq && 0.0 < tp
    ensures 0.0 <= 2.0 * (nq + 1.0) * tp
    ensures positive ==> 0.0 < (nq - 1.0) / tp
    ensures positive ==> 4.0 * tp < 2.0 * (nq + 1.0) * tp
  {
    assert 2.0 * (nq + 1.0) * tp == 2.0 * nq * tp + 2.0 * tp;
    if positive {
      assert 2.0 * nq * tp > 2.0 * tp by {
        MulPositive(nq - 1.0, tp);
      }
    } else {
      assert 0.0 <= nq * tp;
    }
  }

  /** Terzaghi's sum c Nc + gamma Df Nq + 0.5 gamma B Ngamma for given factors. */
  function Terzaghi(f: Factors, c: real, gamma: real, depth: real, width: real): real {
    c * f.nc + gamma * depth * f.nq + 0.5 * gamma * width * f.ngamma
  }

  /** qu by Terzaghi's equation, with no shape or depth correction factors. */
  function UltimateBearingCapacity(t: Transcendentals, footing: Footing, soil: Soil): (qu: real)
    requires Valid(t) && AngleInRange(soil.frictionAngle)
    ensures soil.frictionAngle == 0.0 ==>
              qu == 5.14 * soil.cohesion + soil.unitWeight * footing.depth
    ensures 0.0 <= soil.cohesion && 0.0 <= soil.unitWeight && 0.0 <= footing.depth
            && 0.0 <= footing.width ==>
              soil.unitWeight * footing.depth <= qu
  {
    var f := BearingFactors(t, soil.frictionAngle);
    UltimateLowerBound(soil.cohesion, soil.unitWeight, footing.depth, footing.width, f);
    Terzaghi(f, soil.cohesion, soil.unitWeight, footing.depth, footing.width)
  }

  lemma UltimateLowerBound(c: real, gamma: real, depth: real, width: real, f: Factors)
    requires 0.0 < f.nc && 1.0 <= f.nq && 0.0 <= f.ngamma
    ensures 0.0 <= c && 0.0 <= gamma && 0.0 <= depth && 0.0 <= width ==>
              gamma * depth <= Terzaghi(f, c, gamma, depth, width)
  {
    if 0.0 <= c && 0.0 <= gamma && 0.0 <= depth && 0.0 <= width {
      assert 0.0 <= c * f.nc;
      assert 0.0 <= gamma * depth;
      assert gamma * depth * f.nq - gamma * depth == gamma * depth * (f.nq - 1.0);
      assert 0.0 <= gamma * depth * (f.nq - 1.0);
      assert 0.0 <= gamma * width;
      assert 0.0 <= 0.5 * gamma * width * f.ngamma;
    }
  }

  /** The footing length enters no term of the capacity. */
  lemma UltimateIgnoresLength(t: Transcendentals, footing: Footing, soil: Soil, length: real)
    requires Valid(t) && AngleInRange(soil.frictionAngle)
    ensures UltimateBearingCapacity(t, footing.(length := length), soil)
            == UltimateBearingCapacity(t, footing, soil)
  {
  }

  /**
   * More cohesion, deeper embedment or a wider footing never lowers the
   * ultimate capacity (for non-negative soil weight).
   */
  lemma UltimateMonotone(t: Transcendentals, f1: Footing, f2: Footing, s1: Soil, s2: Soil)
    requires Valid(t) && AngleInRange(s1.frictionAngle)
    requires s2.frictionAngle == s1.frictionAngle && s2.unitWeight == s1.unitWeight
    requires 0.0 <= s1.unitWeight
    requires s1.cohesion <= s2.cohesion && f1.depth <= f2.depth && f1.width <= f2.width
    ensures UltimateBearingCapacity(t, f1, s1) <= UltimateBearingCapacity(t, f2, s2)
  {
    var f := BearingFactors(t, s1.frictionAngle);
    TermsMonotone(s1.cohesion, s2.cohesion, f1.depth, f2.depth, f1.width, f2.width, s1.unitWeight, f);
  }

  lemma TermsMonotone(c1: real, c2: real, d1: real, d2: real, w1: real, w2: real, g: real, f: Factors)
    requires 0.0 <= f.nc && 0.0 <= f.nq && 0.0 <= f.ngamma && 0.0 <= g
    requires c1 <= c2 && d1 <= d2 && w1 <= w2
    ensures Terzaghi(f, c1, g, d1, w1) <= Terzaghi(f, c2, g, d2, w2)
  {
    ScaleMonotone(c1, c2, f.nc);
    ScaleMonotone(d1, d2, g * f.nq);
    ScaleMonotone(w1, w2, 0.5 * g * f.ngamma);
    assert g * d1 * f.nq == d1 * (g * f.nq) && g * d2 * f.nq == d2 * (g * f.nq);
    assert 0.5 * g * w1 * f.ngamma == w1 * (0.5 * g * f.ngamma);
    assert 0.5 * g * w2 * f.ngamma == w2 * (0.5 * g * f.ngamma);
  }

  lemma ScaleMonotone(a: real, b: real, k: real)
    requires a <= b && 0.0 <= k
    ensures a * k <= b * k
  {
    assert b * k - a * k == (b - a) * k;
  }

  /** qa = qu / FOS: the ultimate capacity is FOS times the allowable one. */
  function AllowableBearingCapacity(qu: real, factorOfSafety: real): (qa: real)
    requires factorOfSafety != 0.0
    ensures qa * factorOfSafety == qu
    ensures 1.0 < factorOfSafety && 0.0 < qu ==> 0.0 < qa < qu
  {
    DivideBySafety(qu, factorOfSafety);
    qu / factorOfSafety
  }

  /** The load spread over the footing area B * L. */
  function AppliedPressure(load: real, width: real, length: real): (p: real)
    requires width * length != 0.0
    ensures p * (width * length) == load
    ensures 0.0 < width * length ==> (0.0 < p <==> 0.0 < load)
  {
    load / (width * length)
  }

  lemma DivideBySafety(q: real, fos: real)
    requires fos != 0.0
    ensures 1.0 < fos && 0.0 < q ==> 0.0 < q / fos < q
  {
    if 1.0 < fos && 0.0 < q {
      assert q == (q / fos) * fos;
      assert 0.0 < q / fos;
      assert (q / fos) * fos - q / fos == (q / fos) * (fos - 1.0);
      MulPositive(q / fos, fos - 1.0);
    }
  }
}
