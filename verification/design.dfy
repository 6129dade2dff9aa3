/**
 * The arithmetic the controller composes from the calculators: safety
 * factors with a sentinel for zero demand, and the shallow-footing,
 * single-pile and pile-group checks.
 */
module Design {
  import opened Transcendental
  import opened Soils
  import Shallow
  import Deep

  /**
   * A safety factor. `Unbounded` stands for the `float('inf')` that `app.py`
   * returns instead of dividing when the demand is not positive.
   */
  datatype Margin = Finite(ratio: real) | Unbounded

  /** allowable / demand when the demand is positive, otherwise unbounded. */
  function SafetyFactor(capacity: real, demand: real): (m: Margin)
    ensures m.Unbounded? <==> demand <= 0.0
    ensures m.Finite? ==> m.ratio * demand == capacity
    ensures m.Finite? ==> (1.0 <= m.ratio <==> demand <= capacity)
  {
    if demand > 0.0 then
      RatioAtLeastOne(capacity, demand);
      Finite(capacity / demand)
    else
      Unbounded
  }

  lemma RatioAtLeastOne(capacity: real, demand: real)
    requires 0.0 < demand
    ensures 1.0 <= capacity / demand <==> demand <= capacity
  {
    assert capacity == (capacity / demand) * demand;
    if 1.0 <= capacity / demand {
      assert (capacity / demand - 1.0) * demand >= 0.0;
    } else {
      assert (1.0 - capacity / demand) * demand > 0.0;
    }
  }

  datatype ShallowReport = ShallowReport(ultimate: real, allowable: real, pressure: real, margin: Margin)

  /** `_calculate_shallow_foundation`: capacity with the default FOS 3.0 against the applied pressure. */
  function ShallowFoundation(t: Transcendentals, footing: Shallow.Footing, soil: Soil): (r: ShallowReport)
    requires Valid(t) && AngleInRange(soil.frictionAngle)
    requires footing.width * footing.length != 0.0
    ensures r.ultimate == Shallow.UltimateBearingCapacity(t, footing, soil)
    ensures r.allowable * Shallow.DefaultFactorOfSafety == r.ultimate
    ensures r.pressure * (footing.width * footing.length) == footing.load
    ensures 0.0 < footing.width * footing.length ==> (r.margin.Unbounded? <==> footing.load <= 0.0)
    ensures r.margin.Finite? ==>
              r.margin.ratio * footing.load == r.allowable * (footing.width * footing.length)
  {
    var qu := Shallow.UltimateBearingCapacity(t, footing, soil);
    var qa := Shallow.AllowableBearingCapacity(qu, Shallow.DefaultFactorOfSafety);
    var p := Shallow.AppliedPressure(footing.load, footing.width, footing.length);
    var m := SafetyFactor(qa, p);
    ShallowMarginByArea(qa, p, footing.load, footing.width * footing.length, m);
    ShallowReport(qu, qa, p, m)
  }

  lemma ShallowMarginByArea(qa: real, p: real, load: real, area: real, m: Margin)
    requires area != 0.0 && p * area == load && m == SafetyFactor(qa, p)
    ensures m.Finite? ==> m.ratio * load == qa * area
  {
    if m.Finite? {
      assert m.ratio * load == (m.ratio * p) * area;
    }
  }

  datatype PileReport = PileReport(capacity: Deep.Capacity, margin: Margin)

  /** `_calculate_single_pile`: pile capacity with the default FOS 2.5 against the load. */
  function SinglePile(t: Transcendentals, pile: Deep.Pile, soil: Soil, load: real): (r: PileReport)
    requires Valid(t) && AngleInRange(soil.frictionAngle)
    ensures r.capacity == Deep.PileCapacity(t, pile, soil, Deep.DefaultFactorOfSafety)
    ensures r.margin.Unbounded? <==> load <= 0.0
    ensures r.margin.Finite? ==>
              r.margin.ratio * load * Deep.DefaultFactorOfSafety == r.capacity.ultimate
  {
    var c := Deep.PileCapacity(t, pile, soil, Deep.DefaultFactorOfSafety);
    var m := SafetyFactor(c.allowable, load);
    PileReport(c, m)
  }

  /** The divisor the group path hard-codes, whatever FOS the single pile used. */
  const GroupFactorOfSafety: real := 2.5

  /** Qu_group = Qu_single * n * efficiency. */
  function GroupUltimate(singleUltimate: real, numPiles: int, efficiency: real): real {
    singleUltimate * numPiles as real * efficiency
  }

  /** Qa_group = Qu_group / 2.5. */
  function GroupAllowable(groupUltimate: real): (qa: real)
    ensures qa * GroupFactorOfSafety == groupUltimate
  {
    groupUltimate / GroupFactorOfSafety
  }

  /**
   * The group allowable capacity undercuts n single-pile allowable
   * capacities computed with factor of safety `fos` exactly when
   * efficiency * fos < 2.5. With the default single-pile FOS of 2.5 this is
   * "efficiency < 1"; any other single-pile FOS shifts the threshold,
   * because the group divisor does not follow it.
   */
  lemma GroupAllowableVersusSingles(singleUltimate: real, numPiles: int, efficiency: real, fos: real)
    requires 0.0 < singleUltimate && 0 < numPiles && 0.0 < fos
    ensures GroupAllowable(GroupUltimate(singleUltimate, numPiles, efficiency))
              < numPiles as real * (singleUltimate / fos)
            <==> efficiency * fos < GroupFactorOfSafety
  {
    var n := numPiles as real;
    var k := singleUltimate * n;
    MulPositive(singleUltimate, n);
    assert GroupAllowable(GroupUltimate(singleUltimate, numPiles, efficiency)) == k * efficiency / 2.5;
    assert n * (singleUltimate / fos) == k / fos;
    ScaledComparison(k, efficiency, fos);
  }

  lemma ScaledComparison(k: real, e: real, fos: real)
    requires 0.0 < k && 0.0 < fos
    ensures k * e / 2.5 < k / fos <==> e * fos < 2.5
  {
    assert k * e / 2.5 - k / fos == k * (e * fos - 2.5) / (2.5 * fos);
    MulPositive(2.5, fos);
    if e * fos < 2.5 {
      MulPositive(k, 2.5 - e * fos);
      assert k * (e * fos - 2.5) < 0.0;
    } else {
      assert 0.0 <= k * (e * fos - 2.5);
    }
  }

  datatype GroupReport = GroupReport(
    single: Deep.Capacity,
    efficiency: real,
    ultimate: real,
    allowable: real,
    loadPerPile: real,
    margin: Margin)

  /**
   * `_calculate_pile_group`: every pile of the group is taken as bored with
   * the default FOS 2.5, reduced by the group efficiency, and the group
   * allowable capacity is checked against the total load.
   */
  function PileGroup(t: Transcendentals, diameter: real, length: real, numPiles: int, spacing: real,
                     totalLoad: real, soil: Soil): (r: GroupReport)
    requires Valid(t) && AngleInRange(soil.frictionAngle)
    requires diameter != 0.0 && numPiles != 0
    ensures r.single == Deep.PileCapacity(t, Deep.Pile(diameter, length, Deep.Bored), soil, Deep.DefaultFactorOfSafety)
    ensures r.efficiency == Deep.GroupEfficiency(numPiles, spacing, diameter)
    ensures r.ultimate == r.single.ultimate * numPiles as real * r.efficiency
    ensures r.allowable * GroupFactorOfSafety == r.ultimate
    ensures r.loadPerPile * numPiles as real == totalLoad
    ensures r.margin.Unbounded? <==> totalLoad <= 0.0
    ensures r.margin.Finite? ==> r.margin.ratio * totalLoad == r.allowable
    ensures 0.0 < r.single.ultimate && 0 < numPiles ==>
              (r.allowable < numPiles as real * r.single.allowable <==> r.efficiency < 1.0)
  {
    var single := Deep.PileCapacity(t, Deep.Pile(diameter, length, Deep.Bored), soil, Deep.DefaultFactorOfSafety);
    GroupOf(single, Deep.GroupEfficiency(numPiles, spacing, diameter), numPiles, totalLoad)
  }

  /** The group figures for a given single-pile capacity and efficiency. */
  function GroupOf(single: Deep.Capacity, efficiency: real, numPiles: int, totalLoad: real): (r: GroupReport)
    requires single.allowable * Deep.DefaultFactorOfSafety == single.ultimate
    requires numPiles != 0
    ensures r.single == single && r.efficiency == efficiency
    ensures r.ultimate == single.ultimate * numPiles as real * efficiency
    ensures r.allowable * GroupFactorOfSafety == r.ultimate
    ensures r.loadPerPile * numPiles as real == totalLoad
    ensures r.margin.Unbounded? <==> totalLoad <= 0.0
    ensures r.margin.Finite? ==> r.margin.ratio * totalLoad == r.allowable
    ensures 0.0 < single.ultimate && 0 < numPiles ==>
              (r.allowable < numPiles as real * single.allowable <==> efficiency < 1.0)
  {
    var qu := GroupUltimate(single.ultimate, numPiles, efficiency);
    var qa := GroupAllowable(qu);
    GroupReductionAtDefault(single, numPiles, efficiency);
    GroupReport(single, efficiency, qu, qa, totalLoad / numPiles as real, SafetyFactor(qa, totalLoad))
  }

  lemma GroupReductionAtDefault(single: Deep.Capacity, numPiles: int, efficiency: real)
    requires single.allowable * Deep.DefaultFactorOfSafety == single.ultimate
    ensures 0.0 < single.ultimate && 0 < numPiles ==>
              (GroupAllowable(GroupUltimate(single.ultimate, numPiles, efficiency))
                 < numPiles as real * single.allowable
               <==> efficiency < 1.0)
  {
    if 0.0 < single.ultimate && 0 < numPiles {
      GroupAllowableVersusSingles(single.ultimate, numPiles, efficiency, Deep.DefaultFactorOfSafety);
      assert single.allowable == single.ultimate / Deep.DefaultFactorOfSafety;
    }
  }
}
