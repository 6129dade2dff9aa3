/**
 * A soil investigation: its boreholes, lookup of a borehole by id, and the
 * site-wide average of unit weight, cohesion and friction angle.
 */
module Investigations {
  import opened Wrappers
  import opened Search
  import opened Boreholes

  /**
   * `representativeProperties` holds only numeric values here; `project_models.py`
   * allows any value type.
   */
  datatype SoilInvestigation = SoilInvestigation(
    id: string,
    name: string,
    projectId: string,
    siteDescription: string,
    investigationDate: Option<nat>,
    consultant: string,
    boreholes: seq<Borehole>,
    representativeProperties: map<string, real>)

  /** `add_borehole`: appended at the end, nothing else changes. */
  function AddBorehole(inv: SoilInvestigation, b: Borehole): (r: SoilInvestigation)
    ensures r == inv.(boreholes := r.boreholes)
    ensures |r.boreholes| == |inv.boreholes| + 1
    ensures r.boreholes[..|inv.boreholes|] == inv.boreholes
    ensures r.boreholes[|inv.boreholes|] == b
  {
    inv.(boreholes := inv.boreholes + [b])
  }

  /** `get_borehole`: the first borehole with the given id, if any. */
  function GetBorehole(inv: SoilInvestigation, key: string): (r: Option<Borehole>)
    ensures r.None? <==> forall i :: 0 <= i < |inv.boreholes| ==> inv.boreholes[i].id != key
    ensures r.Some? ==>
              exists i :: 0 <= i < |inv.boreholes| && inv.boreholes[i] == r.value && r.value.id == key
                          && forall j :: 0 <= j < i ==> inv.boreholes[j].id != key
  {
    var i := FirstWhere(inv.boreholes, (b: Borehole) => b.id == key);
    if i < |inv.boreholes| then Some(inv.boreholes[i]) else None
  }

  /**
   * Adding a borehole never shadows an earlier one with the same id: lookup
   * after `add_borehole` finds the earlier borehole if there was one, the
   * new borehole if its id matches, and nothing otherwise.
   */
  lemma AddThenGetBorehole(inv: SoilInvestigation, b: Borehole, key: string)
    ensures GetBorehole(AddBorehole(inv, b), key)
            == if GetBorehole(inv, key).Some? then GetBorehole(inv, key)
               else if b.id == key then Some(b)
               else None
  {
    var s := inv.boreholes;
    var s' := s + [b];
    var p := (x: Borehole) => x.id == key;
    var i := FirstWhere(s, p);
    if i < |s| {
      FirstWhereUnique(s', p, i);
    } else if b.id == key {
      FirstWhereUnique(s', p, |s|);
    } else {
      FirstWhereUnique(s', p, |s'|);
    }
  }

  /** The three properties the average is taken of. */
  datatype Property = UnitWeight | Cohesion | FrictionAngle

  function PropertyValue(layer: SoilLayer, p: Property): Option<real> {
    match p
    case UnitWeight => layer.unitWeight
    case Cohesion => layer.cohesion
    case FrictionAngle => layer.frictionAngle
  }

  /** The optional `(depth_top, depth_bottom)` window of the averaging. */
  datatype DepthRange = DepthRange(top: real, bottom: real)

  /**
   * A layer is skipped only when it lies wholly below or wholly above the
   * window; layers that merely touch it count.
   */
  predicate Counted(layer: SoilLayer, range: Option<DepthRange>) {
    match range
    case None => true
    case Some(w) => !(layer.depthTop > w.bottom || layer.depthBottom < w.top)
  }

  /** All layers of all boreholes, borehole by borehole. */
  function AllLayers(bs: seq<Borehole>): seq<SoilLayer> {
    if |bs| == 0 then [] else AllLayers(bs[..|bs| - 1]) + bs[|bs| - 1].layers
  }

  /** The values of `p` present on the counted layers of `s`, in order. */
  function Collected(s: seq<SoilLayer>, range: Option<DepthRange>, p: Property): seq<real> {
    if |s| == 0 then []
    else Collected(s[..|s| - 1], range, p) + Contribution(s[|s| - 1], range, p)
  }

  function Contribution(layer: SoilLayer, range: Option<DepthRange>, p: Property): seq<real> {
    if Counted(layer, range) && PropertyValue(layer, p).Some? then [PropertyValue(layer, p).value] else []
  }

  function Sum(s: seq<real>): real {
    if |s| == 0 then 0.0 else Sum(s[..|s| - 1]) + s[|s| - 1]
  }

  function Mean(s: seq<real>): real
    requires |s| > 0
  {
    Sum(s) / |s| as real
  }

  lemma CollectedSnoc(s: seq<SoilLayer>, x: SoilLayer, range: Option<DepthRange>, p: Property)
    ensures Collected(s + [x], range, p) == Collected(s, range, p) + Contribution(x, range, p)
  {
    assert (s + [x])[..|s|] == s;
  }

  /**
   * `get_average_properties`: walks every layer of every borehole, collects
   * each property's present values from the layers in the window, and
   * reports the mean of each non-empty collection.
   */
  method GetAverageProperties(inv: SoilInvestigation, range: Option<DepthRange>)
    returns (r: map<Property, real>)
    ensures forall p :: p in r <==> |Collected(AllLayers(inv.boreholes), range, p)| > 0
    ensures forall p :: p in r ==> r[p] == Mean(Collected(AllLayers(inv.boreholes), range, p))
  {
    var bs := inv.boreholes;
    var weights: seq<real> := [];
    var cohesions: seq<real> := [];
    var angles: seq<real> := [];
    var i := 0;
    while i < |bs|
      invariant 0 <= i <= |bs|
      invariant weights == Collected(AllLayers(bs[..i]), range, UnitWeight)
      invariant cohesions == Collected(AllLayers(bs[..i]), range, Cohesion)
      invariant angles == Collected(AllLayers(bs[..i]), range, FrictionAngle)
    {
      ghost var seen := AllLayers(bs[..i]);
      var layers := bs[i].layers;
      var j := 0;
      assert seen + layers[..j] == seen;
      while j < |layers|
        invariant 0 <= j <= |layers|
        invariant weights == Collected(seen + layers[..j], range, UnitWeight)
        invariant cohesions == Collected(seen + layers[..j], range, Cohesion)
        invariant angles == Collected(seen + layers[..j], range, FrictionAngle)
      {
        ExtendPrefix(seen, layers, j);
        weights, cohesions, angles := CollectLayer(weights, cohesions, angles, layers[j], range, seen + layers[..j]);
        j := j + 1;
      }
      assert bs[..i + 1][..i] == bs[..i];
      assert layers[..j] == layers;
      i := i + 1;
    }
    assert bs[..i] == bs;
    r := MeansOf(weights, cohesions, angles);
    forall p: Property
      ensures p in r <==> |Collected(AllLayers(bs), range, p)| > 0
      ensures p in r ==> r[p] == Mean(Collected(AllLayers(bs), range, p))
    {
      match p
      case UnitWeight =>
      case Cohesion =>
      case FrictionAngle =>
    }
  }

  lemma ExtendPrefix<T>(seen: seq<T>, s: seq<T>, j: nat)
    requires j < |s|
    ensures seen + s[..j + 1] == (seen + s[..j]) + [s[j]]
  {
    assert s[..j + 1] == s[..j] + [s[j]];
  }

  /** One pass of the inner loop: append the layer's present values to each list. */
  method CollectLayer(weights: seq<real>, cohesions: seq<real>, angles: seq<real>,
                      layer: SoilLayer, range: Option<DepthRange>, ghost seen: seq<SoilLayer>)
    returns (weights': seq<real>, cohesions': seq<real>, angles': seq<real>)
    requires weights == Collected(seen, range, UnitWeight)
    requires cohesions == Collected(seen, range, Cohesion)
    requires angles == Collected(seen, range, FrictionAngle)
    ensures weights' == Collected(seen + [layer], range, UnitWeight)
    ensures cohesions' == Collected(seen + [layer], range, Cohesion)
    ensures angles' == Collected(seen + [layer], range, FrictionAngle)
  {
    CollectedSnoc(seen, layer, range, UnitWeight);
    CollectedSnoc(seen, layer, range, Cohesion);
    CollectedSnoc(seen, layer, range, FrictionAngle);
    weights', cohesions', angles' := weights, cohesions, angles;
    if Counted(layer, range) {
      if layer.unitWeight.Some? {
        weights' := weights' + [layer.unitWeight.value];
      }
      if layer.cohesion.Some? {
        cohesions' := cohesions' + [layer.cohesion.value];
      }
      if layer.frictionAngle.Some? {
        angles' := angles' + [layer.frictionAngle.value];
      }
    }
  }

  /** The result dictionary: a key for each non-empty list, holding its mean. */
  method MeansOf(weights: seq<real>, cohesions: seq<real>, angles: seq<real>)
    returns (r: map<Property, real>)
    ensures UnitWeight in r <==> |weights| > 0
    ensures Cohesion in r <==> |cohesions| > 0
    ensures FrictionAngle in r <==> |angles| > 0
    ensures UnitWeight in r ==> r[UnitWeight] == Mean(weights)
    ensures Cohesion in r ==> r[Cohesion] == Mean(cohesions)
    ensures FrictionAngle in r ==> r[FrictionAngle] == Mean(angles)
  {
    r := map[];
    if |weights| > 0 {
      r := r[UnitWeight := Sum(weights) / |weights| as real];
    }
    if |cohesions| > 0 {
      r := r[Cohesion := Sum(cohesions) / |cohesions| as real];
    }
    if |angles| > 0 {
      r := r[FrictionAngle := Sum(angles) / |angles| as real];
    }
  }

  /** A mean lies between any lower and upper bound of the values averaged. */
  lemma MeanWithinBounds(s: seq<real>, lo: real, hi: real)
    requires |s| > 0
    requires forall i :: 0 <= i < |s| ==> lo <= s[i] <= hi
    ensures lo <= Mean(s) <= hi
  {
    SumWithinBounds(s, lo, hi);
    QuotientBounds(Sum(s), |s| as real, lo, hi);
  }

  lemma QuotientBounds(total: real, n: real, lo: real, hi: real)
    requires 0.0 < n && lo * n <= total <= hi * n
    ensures lo <= total / n <= hi
  {
    assert total / n * n == total;
    if total / n < lo {
      ScaleStrict(total / n, lo, n);
    }
    if hi < total / n {
      ScaleStrict(hi, total / n, n);
    }
  }

  lemma ScaleStrict(a: real, b: real, k: real)
    requires a < b && 0.0 < k
    ensures a * k < b * k
  {
    assert b * k - a * k == (b - a) * k;
  }

  lemma {:induction false} SumWithinBounds(s: seq<real>, lo: real, hi: real)
    requires forall i :: 0 <= i < |s| ==> lo <= s[i] <= hi
    ensures lo * |s| as real <= Sum(s) <= hi * |s| as real
  {
    if |s| > 0 {
      SumWithinBounds(s[..|s| - 1], lo, hi);
    }
  }

  /** A layer that only touches the window at one of its ends is still averaged. */
  lemma TouchingLayerCounted(layer: SoilLayer, w: DepthRange)
    requires w.top <= w.bottom && layer.depthTop <= layer.depthBottom
    requires layer.depthBottom == w.top || layer.depthTop == w.bottom
    ensures Counted(layer, Some(w))
  {
  }
}
