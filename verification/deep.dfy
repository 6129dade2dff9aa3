/**
 * DeepFoundationCalculator: end bearing and skin friction of a single pile,
 * the combined ultimate and allowable capacity, and the piecewise-linear
 * efficiency of a pile group.
 */
module Deep {
  import opened Transcendental
  import opened Soils

  /**
   * `app.py` takes the pile type as a string and compares it with
   * "driven"; every other string, "bored" or not, takes the bored branch.
   */
  datatype PileType = Driven | Bored

  /** Diameter D and embedded length L (m). */
  datatype Pile = Pile(diameter: real, length: real, pileType: PileType)

  /** Qu, Qa, Qb and Qs of one pile (kN). */
  datatype Capacity = Capacity(ultimate: real, allowable: real, endBearing: real, skinFriction: real)

  /** The factor of safety `calculate_pile_capacity` defaults to. */
  const DefaultFactorOfSafety: real := 2.5

  /** Fixed cohesion multiplier of the unit end bearing. */
  const EndBearingCohesionFactor: real := 9.0

  /** Cross-section area pi (D/2)^2 of the pile tip. */
  function TipArea(diameter: real): (a: real)
    ensures 0.0 <= a
  {
    Pi * Square(diameter / 2.0)
  }

  /**
   * Qb = (9 c + gamma L Nq) * tip area, with the vertical stress gamma L
   * at the tip.
   */
  function EndBearing(t: Transcendentals, pile: Pile, soil: Soil): (qb: real)
    requires Valid(t) && AngleInRange(soil.frictionAngle)
    ensures soil.frictionAngle == 0.0 ==>
              qb == (EndBearingCohesionFactor * soil.cohesion + soil.unitWeight * pile.length)
                    * TipArea(pile.diameter)
    ensures 0.0 <= soil.cohesion && 0.0 <= soil.unitWeight && 0.0 <= pile.length ==> 0.0 <= qb
  {
    var sigmaV := soil.unitWeight * pile.length;
    var nq := Nq(t, soil.frictionAngle);
    var qb := soil.cohesion * EndBearingCohesionFactor + sigmaV * nq;
    EndBearingSign(soil.cohesion, sigmaV, nq, TipArea(pile.diameter));
    qb * TipArea(pile.diameter)
  }

  lemma EndBearingSign(c: real, sigmaV: real, nq: real, area: real)
    requires 1.0 <= nq && 0.0 <= area
    ensures 0.0 <= c && 0.0 <= sigmaV ==> 0.0 <= (c * EndBearingCohesionFactor + sigmaV * nq) * area
  {
    if 0.0 <= c && 0.0 <= sigmaV {
      assert 0.0 <= sigmaV * nq;
      assert 0.0 <= c * EndBearingCohesionFactor + sigmaV * nq;
    }
  }

  /** The lateral earth-pressure coefficient K of the shaft. */
  function ShaftCoefficient(pileType: PileType): real {
    match pileType
    case Driven => 0.8
    case Bored => 0.7
  }

  /** The soil-pile interface friction angle delta, a fraction of phi. */
  function InterfaceAngle(pileType: PileType, phi: real): (delta: real)
    requires AngleInRange(phi)
    ensures AngleInRange(delta) && delta <= phi
  {
    match pileType
    case Driven => 0.75 * phi
    case Bored => 0.6 * phi
  }

  /**
   * Qs = (c + K (gamma L / 2) tan delta) * pi D * L, with the average
   * vertical stress gamma L / 2 along the shaft.
   */
  function SkinFriction(t: Transcendentals, pile: Pile, soil: Soil): (qs: real)
    requires Valid(t) && AngleInRange(soil.frictionAngle)
    ensures soil.frictionAngle == 0.0 ==>
              qs == soil.cohesion * (Pi * pile.diameter) * pile.length
    ensures (0.0 <= soil.cohesion && 0.0 <= soil.unitWeight && 0.0 <= pile.length
             && 0.0 <= pile.diameter) ==> 0.0 <= qs
  {
    var perimeter := Pi * pile.diameter;
    var sigmaAvg := soil.unitWeight * pile.length / 2.0;
    var delta := InterfaceAngle(pile.pileType, soil.frictionAngle);
    TanFacts(t, delta);
    SkinSign(soil.cohesion, ShaftCoefficient(pile.pileType), sigmaAvg, t.tanDeg(delta), perimeter, pile.length);
    ShaftResistance(soil.cohesion, ShaftCoefficient(pile.pileType), sigmaAvg, t.tanDeg(delta), perimeter, pile.length)
  }

  /** fs * perimeter * L with the unit skin friction fs = c + K sigma tan(delta). */
  function ShaftResistance(c: real, k: real, sigma: real, tanDelta: real, perimeter: real, length: real): real {
    (c + k * sigma * tanDelta) * perimeter * length
  }

  lemma SkinSign(c: real, k: real, sigma: real, tanDelta: real, perimeter: real, length: real)
    requires 0.0 < k && 0.0 <= tanDelta
    ensures (0.0 <= c && 0.0 <= sigma && 0.0 <= perimeter && 0.0 <= length) ==>
              0.0 <= ShaftResistance(c, k, sigma, tanDelta, perimeter, length)
  {
    if 0.0 <= c && 0.0 <= sigma && 0.0 <= perimeter && 0.0 <= length {
      assert 0.0 <= k * sigma;
      assert 0.0 <= k * sigma * tanDelta;
      assert 0.0 <= (c + k * sigma * tanDelta) * perimeter;
    }
  }

  /** Qu = Qb + Qs and Qa = Qu / FOS. */
  function PileCapacity(t: Transcendentals, pile: Pile, soil: Soil, factorOfSafety: real): (r: Capacity)
    requires Valid(t) && AngleInRange(soil.frictionAngle) && factorOfSafety != 0.0
    ensures r.endBearing == EndBearing(t, pile, soil)
    ensures r.skinFriction == SkinFriction(t, pile, soil)
    ensures r.ultimate == r.endBearing + r.skinFriction
    ensures r.allowable * factorOfSafety == r.ultimate
    ensures 1.0 < factorOfSafety && 0.0 < r.ultimate ==> 0.0 < r.allowable < r.ultimate
  {
    Combine(EndBearing(t, pile, soil), SkinFriction(t, pile, soil), factorOfSafety)
  }

  /** The capacity record for given tip and shaft resistances. */
  function Combine(qb: real, qs: real, factorOfSafety: real): (r: Capacity)
    requires factorOfSafety != 0.0
    ensures r.endBearing == qb && r.skinFriction == qs
    ensures r.ultimate == qb + qs
    ensures r.allowable * factorOfSafety == r.ultimate
    ensures 1.0 < factorOfSafety && 0.0 < r.ultimate ==> 0.0 < r.allowable < r.ultimate
  {
    AllowableBelowUltimate(qb + qs, factorOfSafety);
    Capacity(qb + qs, (qb + qs) / factorOfSafety, qb, qs)
  }

  lemma AllowableBelowUltimate(q: real, fos: real)
    requires fos != 0.0
    ensures (q / fos) * fos == q
    ensures 1.0 < fos && 0.0 < q ==> 0.0 < q / fos < q
  {
    if 1.0 < fos && 0.0 < q {
      assert q == (q / fos) * fos;
      assert 0.0 < q / fos;
      assert (q / fos) * fos - q / fos == (q / fos) * (fos - 1.0);
      MulPositive(q / fos, fos - 1.0);
    }
  }

  /** The tip resistance does not depend on how the pile was installed. */
  lemma EndBearingIgnoresPileType(t: Transcendentals, pile: Pile, soil: Soil, pileType: PileType)
    requires Valid(t) && AngleInRange(soil.frictionAngle)
    ensures EndBearing(t, pile.(pileType := pileType), soil) == EndBearing(t, pile, soil)
  {
  }

  /**
   * A driven pile carries at least as much as a bored one of the same
   * geometry in the same soil, and strictly more once the soil has friction
   * and the pile has positive size and overburden.
   */
  lemma DrivenAtLeastBored(t: Transcendentals, pile: Pile, soil: Soil, factorOfSafety: real)
    requires Valid(t) && AngleInRange(soil.frictionAngle) && factorOfSafety != 0.0
    requires 0.0 <= soil.unitWeight && 0.0 <= pile.length && 0.0 <= pile.diameter
    ensures var driven := PileCapacity(t, pile.(pileType := Driven), soil, factorOfSafety);
            var bored := PileCapacity(t, pile.(pileType := Bored), soil, factorOfSafety);
            && driven.endBearing == bored.endBearing
            && bored.ultimate <= driven.ultimate
            && ((0.0 < soil.frictionAngle && 0.0 < soil.unitWeight && 0.0 < pile.length
                 && 0.0 < pile.diameter) ==> bored.ultimate < driven.ultimate)
  {
    SkinFrictionDrivenVsBored(t, pile, soil);
    EndBearingIgnoresPileType(t, pile.(pileType := Bored), soil, Driven);
    assert pile.(pileType := Bored).(pileType := Driven) == pile.(pileType := Driven);
  }

  /** The shaft part of `DrivenAtLeastBored`: K and delta are both larger when driven. */
  lemma SkinFrictionDrivenVsBored(t: Transcendentals, pile: Pile, soil: Soil)
    requires Valid(t) && AngleInRange(soil.frictionAngle)
    requires 0.0 <= soil.unitWeight && 0.0 <= pile.length && 0.0 <= pile.diameter
    ensures var driven := SkinFriction(t, pile.(pileType := Driven), soil);
            var bored := SkinFriction(t, pile.(pileType := Bored), soil);
            && bored <= driven
            && ((0.0 < soil.frictionAngle && 0.0 < soil.unitWeight && 0.0 < pile.length
                 && 0.0 < pile.diameter) ==> bored < driven)
  {
    var phi := soil.frictionAngle;
    var a := t.tanDeg(0.75 * phi);
    var b := t.tanDeg(0.6 * phi);
    TanFacts(t, 0.6 * phi);
    if 0.0 < phi {
      TanIncreasing(t, 0.6 * phi, 0.75 * phi);
    } else {
      assert a == b;
    }
    var sigmaAvg := soil.unitWeight * pile.length / 2.0;
    var perimeter := Pi * pile.diameter;
    assert SkinFriction(t, pile.(pileType := Driven), soil)
           == ShaftResistance(soil.cohesion, 0.8, sigmaAvg, a, perimeter, pile.length);
    assert SkinFriction(t, pile.(pileType := Bored), soil)
           == ShaftResistance(soil.cohesion, 0.7, sigmaAvg, b, perimeter, pile.length);
    SkinOrdering(soil.cohesion, sigmaAvg, a, b, perimeter, pile.length);
  }

  lemma SkinOrdering(c: real, sigma: real, a: real, b: real, perimeter: real, length: real)
    requires 0.0 <= b <= a && 0.0 <= sigma && 0.0 <= perimeter && 0.0 <= length
    ensures ShaftResistance(c, 0.7, sigma, b, perimeter, length)
            <= ShaftResistance(c, 0.8, sigma, a, perimeter, length)
    ensures (b < a && 0.0 < sigma && 0.0 < perimeter && 0.0 < length) ==>
              ShaftResistance(c, 0.7, sigma, b, perimeter, length)
              < ShaftResistance(c, 0.8, sigma, a, perimeter, length)
  {
    FrictionTermOrdering(sigma, a, b);
    ShaftMonotone(c, 0.7 * sigma * b, 0.8 * sigma * a, perimeter, length);
  }

  /** The friction term K sigma tan(delta) of a driven pile dominates the bored one. */
  lemma FrictionTermOrdering(sigma: real, a: real, b: real)
    requires 0.0 <= b <= a && 0.0 <= sigma
    ensures 0.7 * sigma * b <= 0.8 * sigma * a
    ensures b < a && 0.0 < sigma ==> 0.7 * sigma * b < 0.8 * sigma * a
  {
    assert 0.8 * sigma * a - 0.7 * sigma * b == sigma * (0.8 * a - 0.7 * b);
    assert 0.0 <= 0.8 * a - 0.7 * b;
    if b < a && 0.0 < sigma {
      MulPositive(sigma, 0.8 * a - 0.7 * b);
    }
  }

  lemma ShaftMonotone(c: real, u: real, v: real, p: real, l: real)
    requires u <= v && 0.0 <= p && 0.0 <= l
    ensures (c + u) * p * l <= (c + v) * p * l
    ensures u < v && 0.0 < p && 0.0 < l ==> (c + u) * p * l < (c + v) * p * l
  {
    assert (c + v) * p * l - (c + u) * p * l == (v - u) * (p * l);
    assert 0.0 <= p * l;
    if u < v && 0.0 < p && 0.0 < l {
      MulPositive(p, l);
      MulPositive(v - u, p * l);
    }
  }

  /**
   * The group efficiency as a function of the spacing-to-diameter ratio r:
   * 1 from r = 6 on, linear from 0.7 to 1 on [3, 6), linear from 0 to 0.7
   * below 3, and never above 1.
   */
  function EfficiencyOfRatio(r: real): (e: real)
    ensures e <= 1.0
    ensures 6.0 <= r ==> e == 1.0
    ensures r == 3.0 ==> e == 0.7
    ensures 0.0 < r ==> 0.0 < e
    ensures r < 6.0 ==> e < 1.0
  {
    var efficiency :=
      if r >= 6.0 then 1.0
      else if r >= 3.0 then 0.7 + 0.3 * (r - 3.0) / 3.0
      else 0.7 * r / 3.0;
    if efficiency <= 1.0 then efficiency else 1.0
  }

  /** `calculate_pile_group_efficiency`: the number of piles is not used. */
  function GroupEfficiency(numPiles: int, spacing: real, diameter: real): (e: real)
    requires diameter != 0.0
    ensures e <= 1.0
    ensures 0.0 < spacing / diameter ==> 0.0 < e
    ensures 6.0 <= spacing / diameter <==> e == 1.0
    ensures spacing == 3.0 * diameter ==> e == 0.7
  {
    EfficiencyOfRatio(spacing / diameter)
  }

  function Min(a: real, b: real): real {
    if a <= b then a else b
  }

  /**
   * The piecewise rule is the lower envelope of its three pieces, extended
   * to all ratios: min(0.7 r / 3, 0.7 + 0.3 (r - 3) / 3, 1).
   */
  lemma EfficiencyIsLowerEnvelope(r: real)
    ensures EfficiencyOfRatio(r) == Min(Min(0.7 * r / 3.0, 0.7 + 0.3 * (r - 3.0) / 3.0), 1.0)
  {
  }

  /** Wider spacing never lowers the efficiency. */
  lemma EfficiencyMonotone(r1: real, r2: real)
    requires r1 <= r2
    ensures EfficiencyOfRatio(r1) <= EfficiencyOfRatio(r2)
  {
    EfficiencyIsLowerEnvelope(r1);
    EfficiencyIsLowerEnvelope(r2);
  }

  /**
   * Continuity: the pieces meet at r = 3 and r = 6, so the efficiency moves
   * by at most 0.7/3 per unit change of the ratio.
   */
  lemma EfficiencyLipschitz(r1: real, r2: real)
    requires r1 <= r2
    ensures 0.0 <= EfficiencyOfRatio(r2) - EfficiencyOfRatio(r1) <= 0.7 * (r2 - r1) / 3.0
  {
    EfficiencyMonotone(r1, r2);
  }

  /** Two groups that differ only in the number of piles have equal efficiency. */
  lemma GroupEfficiencyIgnoresPileCount(n1: int, n2: int, spacing: real, diameter: real)
    requires diameter != 0.0
    ensures GroupEfficiency(n1, spacing, diameter) == GroupEfficiency(n2, spacing, diameter)
  {
  }
}
