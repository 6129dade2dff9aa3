/**
 * RetainingWallCalculator: Rankine active and passive earth-pressure
 * coefficients, and the resultant active thrust on a wall with its line of
 * action.
 */
module RetainingWall {
  import opened Transcendental
  import opened Soils

  /** Height H and thickness (m), and the uniform surcharge q on the backfill (kPa). */
  datatype Wall = Wall(height: real, thickness: real, surcharge: real)

  /** Resultant thrust (kN/m) and its height above the base (m). */
  datatype ActiveThrust = ActiveThrust(total: real, location: real)

  /** Ka = tan^2(45 - phi/2). */
  function ActiveCoefficient(t: Transcendentals, phi: real): (ka: real)
    requires Valid(t) && AngleInRange(phi)
    ensures 0.0 < ka <= 1.0
    ensures phi == 0.0 <==> ka == 1.0
  {
    var x := 45.0 - phi / 2.0;
    TanFacts(t, x);
    UnitSquare(t.tanDeg(x), phi == 0.0);
    Square(t.tanDeg(x))
  }

  lemma UnitSquare(x: real, isOne: bool)
    requires 0.0 < x <= 1.0
    requires isOne <==> x == 1.0
    ensures 0.0 < Square(x) <= 1.0
    ensures isOne <==> Square(x) == 1.0
  {
    SquareLess(0.0, x);
    assert Square(0.0) == 0.0;
    if x < 1.0 {
      SquareLess(x, 1.0);
      assert Square(1.0) == 1.0;
      assert Square(x) < 1.0;
    } else {
      assert x == 1.0;
      assert Square(x) == 1.0;
    }
  }

  /** Kp = tan^2(45 + phi/2). */
  function PassiveCoefficient(t: Transcendentals, phi: real): (kp: real)
    requires Valid(t) && AngleInRange(phi)
    ensures 1.0 <= kp
    ensures 0.0 < phi ==> ActiveCoefficient(t, phi) < kp
  {
    var x := 45.0 + phi / 2.0;
    TanFacts(t, x);
    MulAtLeastOne(t.tanDeg(x), t.tanDeg(x));
    Square(t.tanDeg(x))
  }

  /** Rankine's coefficients are reciprocal: Ka Kp == 1. */
  lemma ActivePassiveReciprocal(t: Transcendentals, phi: real)
    requires Valid(t) && Complementary(t) && AngleInRange(phi)
    ensures ActiveCoefficient(t, phi) * PassiveCoefficient(t, phi) == 1.0
  {
    var a := t.tanDeg(45.0 - phi / 2.0);
    var b := t.tanDeg(45.0 + phi / 2.0);
    assert (45.0 - phi / 2.0) + (45.0 + phi / 2.0) == 90.0;
    assert a * b == 1.0;
    SquareProduct(a, b);
  }

  lemma SquareProduct(a: real, b: real)
    requires a * b == 1.0
    ensures Square(a) * Square(b) == 1.0
  {
    assert Square(a) * Square(b) == (a * b) * (a * b);
  }

  /** Thrust of the triangular soil pressure: 0.5 (Ka gamma H) H, acting at H/3. */
  function SoilThrust(ka: real, unitWeight: real, height: real): real {
    0.5 * (ka * unitWeight * height) * height
  }

  /** Thrust of the rectangular surcharge pressure: (Ka q) H, acting at H/2. */
  function SurchargeThrust(ka: real, surcharge: real, height: real): real {
    (ka * surcharge) * height
  }

  /**
   * The resultant active thrust and the height of its line of action, the
   * moment-weighted centroid of the two components. Cohesion is not used.
   * `app.py` divides by the total thrust, so it must be non-zero.
   */
  function ActiveForce(t: Transcendentals, wall: Wall, soil: Soil): (r: ActiveThrust)
    requires Valid(t) && AngleInRange(soil.frictionAngle)
    requires var ka := ActiveCoefficient(t, soil.frictionAngle);
             SoilThrust(ka, soil.unitWeight, wall.height) + SurchargeThrust(ka, wall.surcharge, wall.height) != 0.0
    ensures var ka := ActiveCoefficient(t, soil.frictionAngle);
            var fs := SoilThrust(ka, soil.unitWeight, wall.height);
            var fq := SurchargeThrust(ka, wall.surcharge, wall.height);
            && r.total == fs + fq
            && r.location * r.total == fs * (wall.height / 3.0) + fq * (wall.height / 2.0)
  {
    var ka := ActiveCoefficient(t, soil.frictionAngle);
    var fs := SoilThrust(ka, soil.unitWeight, wall.height);
    var fq := SurchargeThrust(ka, wall.surcharge, wall.height);
    var total := fs + fq;
    var moment := fs * (wall.height / 3.0) + fq * (wall.height / 2.0);
    ActiveThrust(total, moment / total)
  }

  /** The walls the input form admits: positive height and weight, no negative surcharge. */
  predicate Retains(wall: Wall, soil: Soil) {
    0.0 < wall.height && 0.0 < soil.unitWeight && 0.0 <= wall.surcharge
  }

  /** Such a wall always carries a positive thrust, so `ActiveForce` is defined. */
  lemma ThrustPositive(t: Transcendentals, wall: Wall, soil: Soil)
    requires Valid(t) && AngleInRange(soil.frictionAngle) && Retains(wall, soil)
    ensures var ka := ActiveCoefficient(t, soil.frictionAngle);
            && 0.0 < SoilThrust(ka, soil.unitWeight, wall.height)
            && 0.0 <= SurchargeThrust(ka, wall.surcharge, wall.height)
            && (0.0 < wall.surcharge ==> 0.0 < SurchargeThrust(ka, wall.surcharge, wall.height))
  {
    var ka := ActiveCoefficient(t, soil.frictionAngle);
    ComponentSigns(ka, soil.unitWeight, wall.surcharge, wall.height);
  }

  lemma ComponentSigns(ka: real, g: real, q: real, h: real)
    requires 0.0 < ka && 0.0 < g && 0.0 <= q && 0.0 < h
    ensures 0.0 < SoilThrust(ka, g, h)
    ensures 0.0 <= SurchargeThrust(ka, q, h)
    ensures 0.0 < q ==> 0.0 < SurchargeThrust(ka, q, h)
  {
    MulPositive(ka, g);
    MulPositive(ka * g, h);
    MulPositive(ka * g * h, h);
    assert 0.0 <= ka * q;
    if 0.0 < q {
      MulPositive(ka, q);
      MulPositive(ka * q, h);
    }
  }

  /**
   * The line of action is a weighted average of H/3 (soil) and H/2
   * (surcharge): it lies between them, strictly above H/3 under a positive
   * surcharge.
   */
  lemma LocationBetweenThirdAndHalf(t: Transcendentals, wall: Wall, soil: Soil)
    requires Valid(t) && AngleInRange(soil.frictionAngle) && Retains(wall, soil)
    ensures ThrustPositiveAt(t, wall, soil)
    ensures var r := ActiveForce(t, wall, soil);
            && wall.height / 3.0 <= r.location < wall.height / 2.0
            && (0.0 < wall.surcharge ==> wall.height / 3.0 < r.location)
  {
    ThrustPositive(t, wall, soil);
    var ka := ActiveCoefficient(t, soil.frictionAngle);
    var fs := SoilThrust(ka, soil.unitWeight, wall.height);
    var fq := SurchargeThrust(ka, wall.surcharge, wall.height);
    var r := ActiveForce(t, wall, soil);
    WeightedAverage(fs, fq, wall.height, r.location);
  }

  /** `ActiveForce`'s precondition, as a predicate. */
  predicate ThrustPositiveAt(t: Transcendentals, wall: Wall, soil: Soil)
    requires Valid(t) && AngleInRange(soil.frictionAngle)
  {
    var ka := ActiveCoefficient(t, soil.frictionAngle);
    0.0 < SoilThrust(ka, soil.unitWeight, wall.height) + SurchargeThrust(ka, wall.surcharge, wall.height)
  }

  lemma WeightedAverage(fs: real, fq: real, h: real, z: real)
    requires 0.0 < fs && 0.0 <= fq && 0.0 < h
    requires z * (fs + fq) == fs * (h / 3.0) + fq * (h / 2.0)
    ensures h / 3.0 <= z < h / 2.0
    ensures 0.0 < fq ==> h / 3.0 < z
  {
    assert (z - h / 3.0) * (fs + fq) == fq * (h / 6.0);
    assert (h / 2.0 - z) * (fs + fq) == fs * (h / 6.0);
    MulPositive(fs, h / 6.0);
    if 0.0 < fq {
      MulPositive(fq, h / 6.0);
    }
  }

  /** Without surcharge the pressure is a triangle: thrust 0.5 Ka gamma H^2 at H/3. */
  lemma ActiveForceNoSurcharge(t: Transcendentals, wall: Wall, soil: Soil)
    requires Valid(t) && AngleInRange(soil.frictionAngle) && Retains(wall, soil)
    requires wall.surcharge == 0.0
    ensures ThrustPositiveAt(t, wall, soil)
    ensures var r := ActiveForce(t, wall, soil);
            && r.location == wall.height / 3.0
            && r.total == 0.5 * ActiveCoefficient(t, soil.frictionAngle) * soil.unitWeight
                          * wall.height * wall.height
  {
    ThrustPositive(t, wall, soil);
    var ka := ActiveCoefficient(t, soil.frictionAngle);
    var fs := SoilThrust(ka, soil.unitWeight, wall.height);
    var r := ActiveForce(t, wall, soil);
    assert SurchargeThrust(ka, wall.surcharge, wall.height) == 0.0;
    assert r.location * fs == fs * (wall.height / 3.0);
    CancelPositive(r.location, wall.height / 3.0, fs);
  }

  lemma CancelPositive(a: real, b: real, k: real)
    requires 0.0 < k && a * k == b * k
    ensures a == b
  {
    assert (a - b) * k == 0.0;
  }

  /**
   * Raising the surcharge strictly raises both the resultant thrust and its
   * line of action.
   */
  lemma SurchargeRaisesThrust(t: Transcendentals, wall: Wall, soil: Soil, surcharge: real)
    requires Valid(t) && AngleInRange(soil.frictionAngle) && Retains(wall, soil)
    requires wall.surcharge < surcharge
    ensures ThrustPositiveAt(t, wall, soil) && ThrustPositiveAt(t, wall.(surcharge := surcharge), soil)
    ensures var low := ActiveForce(t, wall, soil);
            var high := ActiveForce(t, wall.(surcharge := surcharge), soil);
            low.total < high.total && low.location < high.location
  {
    var wall' := wall.(surcharge := surcharge);
    var fs, fq1 := Resolve(t, wall, soil);
    var fs', fq2 := Resolve(t, wall', soil);
    SurchargeThrustIncreasing(ActiveCoefficient(t, soil.frictionAngle), wall.surcharge, surcharge, wall.height);
    ResultantsOrdered(fs, fq1, fq2, wall.height, ActiveForce(t, wall, soil), ActiveForce(t, wall', soil));
  }

  /** The soil and surcharge thrusts of a retaining wall, and the resultant they make. */
  lemma Resolve(t: Transcendentals, wall: Wall, soil: Soil) returns (fs: real, fq: real)
    requires Valid(t) && AngleInRange(soil.frictionAngle) && Retains(wall, soil)
    ensures ThrustPositiveAt(t, wall, soil)
    ensures fs == SoilThrust(ActiveCoefficient(t, soil.frictionAngle), soil.unitWeight, wall.height)
    ensures fq == SurchargeThrust(ActiveCoefficient(t, soil.frictionAngle), wall.surcharge, wall.height)
    ensures 0.0 < fs && 0.0 <= fq
    ensures ActiveForce(t, wall, soil).total == fs + fq
    ensures ActiveForce(t, wall, soil).location * ActiveForce(t, wall, soil).total
            == fs * (wall.height / 3.0) + fq * (wall.height / 2.0)
  {
    ThrustPositive(t, wall, soil);
    var ka := ActiveCoefficient(t, soil.frictionAngle);
    fs := SoilThrust(ka, soil.unitWeight, wall.height);
    fq := SurchargeThrust(ka, wall.surcharge, wall.height);
  }

  /** Two resultants over the same soil thrust, the second with the larger surcharge thrust. */
  lemma ResultantsOrdered(fs: real, fq1: real, fq2: real, h: real, low: ActiveThrust, high: ActiveThrust)
    requires 0.0 < fs && 0.0 <= fq1 < fq2 && 0.0 < h
    requires low.total == fs + fq1 && low.location * low.total == fs * (h / 3.0) + fq1 * (h / 2.0)
    requires high.total == fs + fq2 && high.location * high.total == fs * (h / 3.0) + fq2 * (h / 2.0)
    ensures low.total < high.total && low.location < high.location
  {
    LocationIncreasing(fs, fq1, fq2, h, low.location, high.location);
  }

  lemma SurchargeThrustIncreasing(ka: real, q1: real, q2: real, h: real)
    requires 0.0 < ka && q1 < q2 && 0.0 < h
    ensures SurchargeThrust(ka, q1, h) < SurchargeThrust(ka, q2, h)
  {
    assert SurchargeThrust(ka, q2, h) - SurchargeThrust(ka, q1, h) == ka * (q2 - q1) * h;
    MulPositive(ka, q2 - q1);
    MulPositive(ka * (q2 - q1), h);
  }

  lemma LocationIncreasing(fs: real, fq1: real, fq2: real, h: real, z1: real, z2: real)
    requires 0.0 < fs && 0.0 <= fq1 < fq2 && 0.0 < h
    requires z1 * (fs + fq1) == fs * (h / 3.0) + fq1 * (h / 2.0)
    requires z2 * (fs + fq2) == fs * (h / 3.0) + fq2 * (h / 2.0)
    ensures z1 < z2
  {
    var s1 := fs + fq1;
    var s2 := fs + fq2;
    var u1 := z1 - h / 3.0;
    var u2 := z2 - h / 3.0;
    assert u1 * s1 == fq1 * (h / 6.0);
    assert u2 * s2 == fq2 * (h / 6.0);
    assert (u2 - u1) * (s1 * s2) == (h / 6.0) * (fq2 * s1 - fq1 * s2) by {
      assert (u2 - u1) * (s1 * s2) == (u2 * s2) * s1 - (u1 * s1) * s2;
    }
    assert fq2 * s1 - fq1 * s2 == fs * (fq2 - fq1);
    MulPositive(fs, fq2 - fq1);
    MulPositive(h / 6.0, fs * (fq2 - fq1));
    MulPositive(s1, s2);
  }

  /** Cohesion and the wall thickness enter neither the thrust nor its location. */
  lemma ActiveForceIgnoresCohesionAndThickness(t: Transcendentals, wall: Wall, soil: Soil, cohesion: real, thickness: real)
    requires Valid(t) && AngleInRange(soil.frictionAngle) && ThrustPositiveAt(t, wall, soil)
    ensures ThrustPositiveAt(t, wall.(thickness := thickness), soil.(cohesion := cohesion))
    ensures ActiveForce(t, wall.(thickness := thickness), soil.(cohesion := cohesion)) == ActiveForce(t, wall, soil)
  {
  }
}
