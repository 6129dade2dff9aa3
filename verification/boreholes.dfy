/**
 * Soil layers and boreholes: layer thickness, `Borehole.add_layer` (append,
 * then a stable sort by top depth) and `Borehole.get_layer_at_depth` (the
 * first layer whose half-open depth interval holds the depth).
 */
module Boreholes {
  import opened Wrappers
  import opened Search

  datatype SoilType = Clay | Silt | Sand | Gravel | Peat | Rock | Fill | Mixed

  /** One stratum between two depths below the surface (m), with optional test values. */
  datatype SoilLayer = SoilLayer(
    depthTop: real,
    depthBottom: real,
    soilType: SoilType,
    description: string,
    unitWeight: Option<real>,
    cohesion: Option<real>,
    frictionAngle: Option<real>,
    waterContent: Option<real>,
    plasticityIndex: Option<real>,
    liquidLimit: Option<real>,
    sptN: Option<int>,
    cptQc: Option<real>)

  /** Dates are ticks since the earliest representable date. */
  datatype Borehole = Borehole(
    id: string,
    name: string,
    locationX: real,
    locationY: real,
    groundLevel: real,
    waterLevel: Option<real>,
    totalDepth: real,
    date: Option<nat>,
    layers: seq<SoilLayer>,
    notes: string)

  /** The depth the layer spans; no ordering of its two depths is enforced. */
  function Thickness(layer: SoilLayer): (h: real)
    ensures layer.depthTop + h == layer.depthBottom
    ensures 0.0 < h <==> layer.depthTop < layer.depthBottom
  {
    layer.depthBottom - layer.depthTop
  }

  predicate SortedByTop(s: seq<SoilLayer>) {
    forall i, j :: 0 <= i < j < |s| ==> s[i].depthTop <= s[j].depthTop
  }

  /** `[x]` when `x` has top depth `k`, else empty. */
  function OneWithTop(x: SoilLayer, k: real): seq<SoilLayer> {
    if x.depthTop == k then [x] else []
  }

  /** The layers of `s` whose top depth is `k`, in their order in `s`. */
  function WithTop(s: seq<SoilLayer>, k: real): seq<SoilLayer> {
    if |s| == 0 then [] else OneWithTop(s[0], k) + WithTop(s[1..], k)
  }

  lemma {:induction false} WithTopAppend(a: seq<SoilLayer>, b: seq<SoilLayer>, k: real)
    ensures WithTop(a + b, k) == WithTop(a, k) + WithTop(b, k)
  {
    if |a| == 0 {
      assert a + b == b;
    } else {
      var h := OneWithTop(a[0], k);
      assert (a + b)[0] == a[0] && (a + b)[1..] == a[1..] + b;
      assert WithTop(a + b, k) == h + WithTop(a[1..] + b, k);
      WithTopAppend(a[1..], b, k);
      assert WithTop(a, k) == h + WithTop(a[1..], k);
    }
  }

  lemma {:induction false} WithTopNone(s: seq<SoilLayer>, k: real)
    requires forall i :: 0 <= i < |s| ==> s[i].depthTop != k
    ensures WithTop(s, k) == []
  {
    if |s| > 0 {
      WithTopNone(s[1..], k);
    }
  }

  /**
   * Insertion of `x` into a list sorted by top depth, after every layer
   * whose top is not deeper than its own.
   */
  function InsertByTop(s: seq<SoilLayer>, x: SoilLayer): (r: seq<SoilLayer>)
    ensures |r| == |s| + 1
    ensures multiset(r) == multiset(s) + multiset{x}
  {
    if |s| == 0 then [x]
    else if x.depthTop < s[0].depthTop then [x] + s
    else
      assert s == [s[0]] + s[1..];
      [s[0]] + InsertByTop(s[1..], x)
  }

  lemma {:induction false} InsertSorted(s: seq<SoilLayer>, x: SoilLayer)
    requires SortedByTop(s)
    ensures SortedByTop(InsertByTop(s, x))
  {
    if |s| == 0 {
    } else if x.depthTop < s[0].depthTop {
    } else {
      var rest := InsertByTop(s[1..], x);
      SortedTail(s);
      InsertSorted(s[1..], x);
      InsertAtLeast(s[1..], x, s[0].depthTop);
      SortedCons(s[0], rest);
    }
  }

  /** Every layer of `s` starts at depth `m` or deeper. */
  predicate TopsAtLeast(s: seq<SoilLayer>, m: real) {
    forall i :: 0 <= i < |s| ==> m <= s[i].depthTop
  }

  lemma {:induction false} InsertAtLeast(s: seq<SoilLayer>, x: SoilLayer, m: real)
    requires TopsAtLeast(s, m) && m <= x.depthTop
    ensures TopsAtLeast(InsertByTop(s, x), m)
  {
    if |s| > 0 && s[0].depthTop <= x.depthTop {
      InsertAtLeast(s[1..], x, m);
    }
  }

  lemma SortedCons(first: SoilLayer, rest: seq<SoilLayer>)
    requires SortedByTop(rest) && TopsAtLeast(rest, first.depthTop)
    ensures SortedByTop([first] + rest)
  {
    var r := [first] + rest;
    assert forall j :: 1 <= j < |r| ==> r[j] == rest[j - 1];
  }

  /** Inserting keeps, for every top depth, the relative order of the layers with that top. */
  lemma {:induction false} InsertWithTop(s: seq<SoilLayer>, x: SoilLayer, k: real)
    requires SortedByTop(s)
    ensures WithTop(InsertByTop(s, x), k) == WithTop(s, k) + OneWithTop(x, k)
  {
    if |s| == 0 {
      assert [x][1..] == [];
    } else if x.depthTop < s[0].depthTop {
      InsertInFront(s, x, k);
    } else {
      var rest := InsertByTop(s[1..], x);
      var r := [s[0]] + rest;
      assert r[0] == s[0] && r[1..] == rest;
      assert WithTop(r, k) == OneWithTop(s[0], k) + WithTop(rest, k);
      SortedTail(s);
      InsertWithTop(s[1..], x, k);
      assert WithTop(s, k) == OneWithTop(s[0], k) + WithTop(s[1..], k);
    }
  }

  lemma SortedTail(s: seq<SoilLayer>)
    requires SortedByTop(s) && 0 < |s|
    ensures SortedByTop(s[1..])
  {
  }

  /** A layer shallower than the whole sorted list shares its top with none of it. */
  lemma InsertInFront(s: seq<SoilLayer>, x: SoilLayer, k: real)
    requires SortedByTop(s) && 0 < |s| && x.depthTop < s[0].depthTop
    ensures WithTop([x] + s, k) == WithTop(s, k) + OneWithTop(x, k)
  {
    assert ([x] + s)[1..] == s;
    if x.depthTop == k {
      forall i | 0 <= i < |s|
        ensures s[i].depthTop != k
      {
        assert s[0].depthTop <= s[i].depthTop;
      }
      WithTopNone(s, k);
    }
  }

  /**
   * The stable sort by top depth (Python's `list.sort(key=...)`), as
   * insertion sort: the last element goes in after all earlier ones with
   * the same top.
   */
  function SortByTop(s: seq<SoilLayer>): (r: seq<SoilLayer>)
    ensures |r| == |s|
    ensures multiset(r) == multiset(s)
    ensures SortedByTop(r)
    ensures forall k :: WithTop(r, k) == WithTop(s, k)
  {
    if |s| == 0 then []
    else
      var init := s[..|s| - 1];
      var last := s[|s| - 1];
      assert s == init + [last];
      var sorted := SortByTop(init);
      SortStep(init, last, sorted);
      InsertSorted(sorted, last);
      InsertByTop(sorted, last)
  }

  lemma SortStep(init: seq<SoilLayer>, last: SoilLayer, sorted: seq<SoilLayer>)
    requires SortedByTop(sorted)
    requires forall k :: WithTop(sorted, k) == WithTop(init, k)
    ensures forall k :: WithTop(InsertByTop(sorted, last), k) == WithTop(init + [last], k)
  {
    forall k
      ensures WithTop(InsertByTop(sorted, last), k) == WithTop(init + [last], k)
    {
      InsertWithTop(sorted, last, k);
      WithTopAppend(init, [last], k);
      assert WithTop([last], k) == OneWithTop(last, k) by {
        assert [last][1..] == [];
      }
    }
  }

  /**
   * A sorted list is fixed by its per-top-depth subsequences: two sorted
   * lists that agree on every `WithTop` are equal. So the contract of
   * `SortByTop` (sorted, same `WithTop` for every depth) determines its
   * result.
   */
  lemma {:induction false} StableSortUnique(a: seq<SoilLayer>, b: seq<SoilLayer>)
    requires SortedByTop(a) && SortedByTop(b)
    requires forall k :: WithTop(a, k) == WithTop(b, k)
    ensures a == b
  {
    if 0 < |a| {
      NonEmptyWithTop(a, 0);
    }
    if 0 < |b| {
      NonEmptyWithTop(b, 0);
    }
    if |a| == 0 && |b| == 0 {
    } else if |a| == 0 || |b| == 0 {
      assert false;
    } else {
      var ka := a[0].depthTop;
      var kb := b[0].depthTop;
      MemberOfWithTop(b, ka);
      MemberOfWithTop(a, kb);
      assert ka == kb;
      assert WithTop(a, ka)[0] == a[0];
      assert WithTop(b, ka)[0] == b[0];
      assert a[0] == b[0];
      forall k
        ensures WithTop(a[1..], k) == WithTop(b[1..], k)
      {
        var head := OneWithTop(a[0], k);
        assert WithTop(a, k) == head + WithTop(a[1..], k);
        assert WithTop(b, k) == head + WithTop(b[1..], k);
        assert WithTop(a[1..], k) == WithTop(a, k)[|head|..];
        assert WithTop(b[1..], k) == WithTop(b, k)[|head|..];
      }
      assert SortedByTop(a[1..]) && SortedByTop(b[1..]);
      StableSortUnique(a[1..], b[1..]);
      assert a == [a[0]] + a[1..];
      assert b == [b[0]] + b[1..];
    }
  }

  lemma {:induction false} NonEmptyWithTop(s: seq<SoilLayer>, i: nat)
    requires i < |s|
    ensures |WithTop(s, s[i].depthTop)| > 0
  {
    if i > 0 {
      NonEmptyWithTop(s[1..], i - 1);
    }
  }

  /** In a sorted list, a top depth that occurs at all is at least the first one. */
  lemma {:induction false} MemberOfWithTop(s: seq<SoilLayer>, k: real)
    requires SortedByTop(s) && |s| > 0 && |WithTop(s, k)| > 0
    ensures s[0].depthTop <= k
  {
    if s[0].depthTop != k {
      assert |WithTop(s[1..], k)| > 0;
      MemberOfWithTop(s[1..], k);
    }
  }

  /** Sorting a sorted list changes nothing. */
  lemma SortSortedIsIdentity(s: seq<SoilLayer>)
    requires SortedByTop(s)
    ensures SortByTop(s) == s
  {
    StableSortUnique(SortByTop(s), s);
  }

  /**
   * `add_layer`: the layer list becomes the old layers plus the new one,
   * sorted by top depth, layers with equal tops keeping their order and the
   * new layer coming after the old ones with its top; nothing else changes.
   */
  function AddLayer(b: Borehole, layer: SoilLayer): (r: Borehole)
    ensures r == b.(layers := r.layers)
    ensures |r.layers| == |b.layers| + 1
    ensures multiset(r.layers) == multiset(b.layers) + multiset{layer}
    ensures SortedByTop(r.layers)
    ensures forall k :: WithTop(r.layers, k) == WithTop(b.layers, k) + OneWithTop(layer, k)
  {
    var r := b.(layers := SortByTop(b.layers + [layer]));
    AddLayerClasses(b.layers, layer, r.layers);
    r
  }

  lemma AddLayerClasses(s: seq<SoilLayer>, x: SoilLayer, r: seq<SoilLayer>)
    requires forall k :: WithTop(r, k) == WithTop(s + [x], k)
    ensures forall k :: WithTop(r, k) == WithTop(s, k) + OneWithTop(x, k)
  {
    forall k
      ensures WithTop(r, k) == WithTop(s, k) + OneWithTop(x, k)
    {
      WithTopAppend(s, [x], k);
      assert WithTop([x], k) == OneWithTop(x, k) by {
        assert [x][1..] == [];
      }
    }
  }

  /** On a borehole whose layers are already sorted, `add_layer` is a single insertion. */
  lemma AddLayerToSortedInserts(b: Borehole, layer: SoilLayer)
    requires SortedByTop(b.layers)
    ensures AddLayer(b, layer).layers == InsertByTop(b.layers, layer)
  {
    var s := b.layers + [layer];
    assert s[..|s| - 1] == b.layers;
    SortSortedIsIdentity(b.layers);
  }

  /** The depth interval of a layer is half-open: top included, bottom excluded. */
  predicate Holds(layer: SoilLayer, depth: real) {
    layer.depthTop <= depth < layer.depthBottom
  }

  /** `get_layer_at_depth`: the first layer, in list order, whose interval holds the depth. */
  function LayerAtDepth(b: Borehole, depth: real): (r: Option<SoilLayer>)
    ensures r.None? <==> forall i :: 0 <= i < |b.layers| ==> !Holds(b.layers[i], depth)
    ensures r.Some? ==>
              exists i :: 0 <= i < |b.layers| && b.layers[i] == r.value && Holds(r.value, depth)
                          && forall j :: 0 <= j < i ==> !Holds(b.layers[j], depth)
  {
    var i := FirstWhere(b.layers, (l: SoilLayer) => Holds(l, depth));
    if i < |b.layers| then Some(b.layers[i]) else None
  }

  /** Each layer starts where the previous one ends, and is not empty. */
  predicate Contiguous(s: seq<SoilLayer>) {
    && (forall i :: 0 <= i < |s| ==> s[i].depthTop < s[i].depthBottom)
    && (forall i, j :: 0 <= i < |s| && 0 <= j < |s| && j == i + 1 ==> s[i].depthBottom == s[j].depthTop)
  }

  lemma {:induction false} BottomsIncrease(s: seq<SoilLayer>, i: nat, j: nat)
    requires Contiguous(s) && i <= j < |s|
    ensures s[i].depthBottom <= s[j].depthBottom
  {
    if i < j {
      BottomsIncrease(s, i, j - 1);
      assert s[j - 1].depthBottom == s[j].depthTop;
    }
  }

  /**
   * In a contiguous profile, the depth where layer i ends and layer i + 1
   * begins belongs to layer i + 1.
   */
  lemma BoundaryBelongsToLowerLayer(b: Borehole, i: nat)
    requires Contiguous(b.layers) && i + 1 < |b.layers|
    ensures LayerAtDepth(b, b.layers[i].depthBottom) == Some(b.layers[i + 1])
  {
    var d := b.layers[i].depthBottom;
    var p := (l: SoilLayer) => Holds(l, d);
    forall j | 0 <= j < i + 1
      ensures !p(b.layers[j])
    {
      BottomsIncrease(b.layers, j, i);
    }
    assert b.layers[i].depthBottom == b.layers[i + 1].depthTop;
    FirstWhereUnique(b.layers, p, i + 1);
  }
}
