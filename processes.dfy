/** The two raster processes of uavstats/processes.py: masked per-zone statistics and
    NDVI band maths. Pixels are reals in row-major order; decoding the raster, opening
    the zones and rasterising one zone (GDAL) are inputs: the band values, the zone
    features and, per zone, which pixels the polygon covers. */
module Processes {
  import opened Wrappers
  import opened SensorThings

  // ---------------------------------------------------------------------------
  // Statistics of a pixel selection (numpy mean, min, max, sum)

  function Sum(s: seq<real>): real
  {
    if s == [] then 0.0 else Sum(s[..|s| - 1]) + s[|s| - 1]
  }

  function MinOf(s: seq<real>): (m: real)
    requires s != []
  {
    if |s| == 1 then s[0]
    else var m := MinOf(s[..|s| - 1]); if s[|s| - 1] < m then s[|s| - 1] else m
  }

  function MaxOf(s: seq<real>): (m: real)
    requires s != []
  {
    if |s| == 1 then s[0]
    else var m := MaxOf(s[..|s| - 1]); if s[|s| - 1] > m then s[|s| - 1] else m
  }

  /** The minimum and maximum are values of the selection and bound every value of it. */
  lemma {:induction false} MinMaxSpec(s: seq<real>)
    requires s != []
    ensures MinOf(s) in s && MaxOf(s) in s
    ensures forall x :: x in s ==> MinOf(s) <= x <= MaxOf(s)
  {
    if |s| > 1 {
      var init := s[..|s| - 1];
      MinMaxSpec(init);
      assert s == init + [s[|s| - 1]];
    }
  }

  /** A lower bound of every value, times the count, bounds the sum from below. */
  lemma {:induction false} SumAtLeast(s: seq<real>, c: real)
    requires forall x :: x in s ==> c <= x
    ensures (|s| as real) * c <= Sum(s)
  {
    if s != [] {
      var init := s[..|s| - 1];
      assert forall x :: x in init ==> x in s;
      SumAtLeast(init, c);
      assert s[|s| - 1] in s;
      assert (|s| as real) * c == (|init| as real) * c + c;
    }
  }

  /** An upper bound of every value, times the count, bounds the sum from above. */
  lemma {:induction false} SumAtMost(s: seq<real>, c: real)
    requires forall x :: x in s ==> x <= c
    ensures Sum(s) <= (|s| as real) * c
  {
    if s != [] {
      var init := s[..|s| - 1];
      assert forall x :: x in init ==> x in s;
      SumAtMost(init, c);
      assert s[|s| - 1] in s;
      assert (|s| as real) * c == (|init| as real) * c + c;
    }
  }

  lemma DivBetween(a: real, n: real, lo: real, hi: real)
    requires n > 0.0 && n * lo <= a <= n * hi
    ensures lo <= a / n <= hi
    ensures a / n * n == a
  {
    var q := a / n;
    assert q * n == a;
  }

  /** The mean of a non-empty selection lies between its minimum and maximum, and the
      mean times the count is the sum. */
  lemma MeanBounds(s: seq<real>)
    requires s != []
    ensures MinOf(s) <= Sum(s) / (|s| as real) <= MaxOf(s)
    ensures Sum(s) / (|s| as real) * (|s| as real) == Sum(s)
  {
    MinMaxSpec(s);
    SumAtLeast(s, MinOf(s));
    SumAtMost(s, MaxOf(s));
    DivBetween(Sum(s), |s| as real, MinOf(s), MaxOf(s));
  }

  // ---------------------------------------------------------------------------
  // Zonal statistics

  /** A polygon of the zones layer: its FID, its `name` and `iot_id` fields (None for a
      null field) and its geometry. */
  datatype Zone = Zone(fid: int, name: Option<string>, iotId: Option<int>, geometry: Json)

  /** The `properties` of an output feature. */
  datatype ZoneStats = ZoneStats(
    fid: int,
    name: Option<string>,
    iotId: Option<int>,
    mean: Option<real>,
    min: Option<real>,
    max: Option<real>,
    sum: Option<real>,
    count: nat)

  /** An output feature: the zone's geometry and its statistics. */
  datatype ZoneFeature = ZoneFeature(geometry: Json, properties: ZoneStats)

  /** The mask the rasterisation leaves: 1 where the polygon covers the pixel, 0 elsewhere
      (the band was filled with 0 first). */
  function Burned(cover: seq<bool>): (m: seq<int>)
    ensures |m| == |cover|
    ensures forall k :: 0 <= k < |m| ==> m[k] == (if cover[k] then 1 else 0)
  {
    if cover == [] then [] else Burned(cover[..|cover| - 1]) + [if cover[|cover| - 1] then 1 else 0]
  }

  /** `raster_data[mask_data == 1]`: the pixels whose mask value is 1, in row-major order. */
  function Selection(raster: seq<real>, mask: seq<int>): (s: seq<real>)
    requires |raster| == |mask|
    ensures |s| <= |raster|
  {
    if raster == [] then []
    else Selection(raster[..|raster| - 1], mask[..|mask| - 1]) + (if mask[|mask| - 1] == 1 then [raster[|raster| - 1]] else [])
  }

  /** The number of mask cells equal to 1. */
  function Ones(mask: seq<int>): nat
  {
    if mask == [] then 0 else Ones(mask[..|mask| - 1]) + (if mask[|mask| - 1] == 1 then 1 else 0)
  }

  /** The selection holds one pixel per mask cell equal to 1: every such pixel's value is
      selected, and every selected value is the value of such a pixel. */
  lemma {:induction false} SelectionSpec(raster: seq<real>, mask: seq<int>)
    requires |raster| == |mask|
    ensures |Selection(raster, mask)| == Ones(mask)
    ensures forall x :: x in Selection(raster, mask) ==> exists k :: 0 <= k < |raster| && mask[k] == 1 && raster[k] == x
    ensures forall k :: 0 <= k < |raster| && mask[k] == 1 ==> raster[k] in Selection(raster, mask)
  {
    SelectionHas(raster, mask);
    if raster != [] {
      var n := |raster| - 1;
      SelectionSpec(raster[..n], mask[..n]);
      forall x | x in Selection(raster, mask)
        ensures exists k :: 0 <= k < |raster| && mask[k] == 1 && raster[k] == x
      {
        if x !in Selection(raster[..n], mask[..n]) {
          assert mask[n] == 1 && raster[n] == x;
        } else {
          var k :| 0 <= k < n && mask[..n][k] == 1 && raster[..n][k] == x;
          assert mask[k] == 1 && raster[k] == x;
        }
      }
    }
  }

  lemma {:induction false} SelectionHas(raster: seq<real>, mask: seq<int>)
    requires |raster| == |mask|
    ensures forall k :: 0 <= k < |raster| && mask[k] == 1 ==> raster[k] in Selection(raster, mask)
  {
    if raster != [] {
      var n := |raster| - 1;
      SelectionHas(raster[..n], mask[..n]);
      forall k | 0 <= k < n && mask[k] == 1 ensures raster[k] in Selection(raster, mask) {
        assert mask[..n][k] == 1 && raster[..n][k] == raster[k];
      }
    }
  }

  /** Selection works cell by cell in raster order: selecting from two rasters laid end
      to end is selecting from each in turn. */
  lemma {:induction false} SelectionAppend(r1: seq<real>, m1: seq<int>, r2: seq<real>, m2: seq<int>)
    requires |r1| == |m1| && |r2| == |m2|
    ensures Selection(r1 + r2, m1 + m2) == Selection(r1, m1) + Selection(r2, m2)
  {
    if r2 == [] {
      assert r1 + r2 == r1 && m1 + m2 == m1;
    } else {
      var n := |r2| - 1;
      SelectionAppend(r1, m1, r2[..n], m2[..n]);
      assert (r1 + r2)[..|r1 + r2| - 1] == r1 + r2[..n];
      assert (m1 + m2)[..|m1 + m2| - 1] == m1 + m2[..n];
      assert (r1 + r2)[|r1 + r2| - 1] == r2[n] && (m1 + m2)[|m1 + m2| - 1] == m2[n];
    }
  }

  /** The statistics of one zone over a selection: all four are None on an empty
      selection (not 0). */
  function Summarize(z: Zone, valid: seq<real>): ZoneStats
  {
    if |valid| > 0 then
      ZoneStats(z.fid, z.name, z.iotId, Some(Sum(valid) / (|valid| as real)), Some(MinOf(valid)), Some(MaxOf(valid)), Some(Sum(valid)), |valid|)
    else ZoneStats(z.fid, z.name, z.iotId, None, None, None, None, 0)
  }

  /** The output feature of one zone, from the pixels its own polygon covers. */
  function ZoneResult(raster: seq<real>, z: Zone, cover: seq<bool>): ZoneFeature
    requires |cover| == |raster|
  {
    ZoneFeature(z.geometry, Summarize(z, Selection(raster, Burned(cover))))
  }

  /** The statistics over a selection: the identifying fields are copied, `count` is
      the number of selected pixels, an empty selection has no mean, min, max or sum, and
      otherwise min <= mean <= max, sum = mean * count, and min and max are selected
      values. */
  lemma SummarizeSpec(z: Zone, valid: seq<real>)
    ensures var st := Summarize(z, valid);
      && st.fid == z.fid && st.name == z.name && st.iotId == z.iotId
      && st.count == |valid|
      && (st.count == 0 <==> st.mean.None?)
      && (st.count == 0 ==> st.min.None? && st.max.None? && st.sum.None?)
      && (st.count > 0 ==>
            && st.mean.Some? && st.min.Some? && st.max.Some? && st.sum.Some?
            && st.min.value <= st.mean.value <= st.max.value
            && st.sum.value == st.mean.value * (st.count as real)
            && st.min.value in valid && st.max.value in valid)
  {
    if valid != [] {
      MeanBounds(valid);
      MinMaxSpec(valid);
    }
  }

  /** A zone's statistics come from exactly the pixels its own polygon covers: `count`
      is the number of covered pixels, and a non-empty zone's min and max are values of
      covered pixels. */
  lemma ZoneResultSpec(raster: seq<real>, z: Zone, cover: seq<bool>)
    requires |cover| == |raster|
    ensures ZoneResult(raster, z, cover).geometry == z.geometry
    ensures ZoneResult(raster, z, cover).properties.count == Ones(Burned(cover))
    ensures var st := ZoneResult(raster, z, cover).properties;
      st.count > 0 ==>
        && st.min.Some? && st.max.Some?
        && (exists k :: 0 <= k < |raster| && cover[k] && raster[k] == st.min.value)
        && (exists k :: 0 <= k < |raster| && cover[k] && raster[k] == st.max.value)
  {
    var mask := Burned(cover);
    var valid := Selection(raster, mask);
    SelectionSpec(raster, mask);
    SummarizeSpec(z, valid);
    if |valid| > 0 {
      var kmin :| 0 <= kmin < |raster| && mask[kmin] == 1 && raster[kmin] == MinOf(valid);
      var kmax :| 0 <= kmax < |raster| && mask[kmax] == 1 && raster[kmax] == MaxOf(valid);
      assert cover[kmin] && cover[kmax];
    }
  }

  /** `rasterized.GetRasterBand(1).Fill(value)`. */
  method Fill(mask: array<int>, value: int)
    modifies mask
    ensures forall k :: 0 <= k < mask.Length ==> mask[k] == value
  {
    var k := 0;
    while k < mask.Length
      invariant 0 <= k <= mask.Length
      invariant forall e :: 0 <= e < k ==> mask[e] == value
    {
      mask[k] := value;
      k := k + 1;
    }
  }

  /** `gdal.RasterizeLayer(..., burn_values=[1])`: 1 is written where the polygon
      covers the pixel and the rest of the band is left as it was. */
  method Burn(mask: array<int>, cover: seq<bool>)
    requires mask.Length == |cover|
    modifies mask
    ensures forall k :: 0 <= k < mask.Length ==> mask[k] == if cover[k] then 1 else old(mask[k])
  {
    var k := 0;
    while k < mask.Length
      invariant 0 <= k <= mask.Length
      invariant forall e :: 0 <= e < k ==> mask[e] == if cover[e] then 1 else old(mask[e])
      invariant forall e :: k <= e < mask.Length ==> mask[e] == old(mask[e])
    {
      if cover[k] {
        mask[k] := 1;
      }
      k := k + 1;
    }
  }

  /** `raster_data[mask_data == 1]` on the current mask. */
  method SelectPixels(raster: seq<real>, mask: array<int>) returns (valid: seq<real>)
    requires mask.Length == |raster|
    ensures valid == Selection(raster, mask[..])
  {
    valid := [];
    var k := 0;
    while k < mask.Length
      invariant 0 <= k <= mask.Length
      invariant valid == Selection(raster[..k], mask[..k])
    {
      assert raster[..k + 1][..k] == raster[..k];
      assert mask[..k + 1][..k] == mask[..k];
      if mask[k] == 1 {
        valid := valid + [raster[k]];
      }
      k := k + 1;
    }
    assert raster[..k] == raster;
    assert mask[..k] == mask[..];
  }

  /** `zonal_statistics`: one output feature per zone, in zone order. The shared mask
      band is refilled with 0 before each zone is burnt into it, so each output depends
      only on its own zone's rasterisation and not on the zones before it. */
  method ZonalStatistics(raster: seq<real>, zones: seq<Zone>, coverage: seq<seq<bool>>, mask: array<int>)
    returns (features: seq<ZoneFeature>)
    requires |coverage| == |zones|
    requires forall f :: 0 <= f < |coverage| ==> |coverage[f]| == |raster|
    requires mask.Length == |raster|
    modifies mask
    ensures |features| == |zones|
    ensures forall f :: 0 <= f < |zones| ==> features[f] == ZoneResult(raster, zones[f], coverage[f])
  {
    features := [];
    var f := 0;
    while f < |zones|
      invariant 0 <= f <= |zones|
      invariant |features| == f
      invariant forall e :: 0 <= e < f ==> features[e] == ZoneResult(raster, zones[e], coverage[e])
    {
      Fill(mask, 0);
      Burn(mask, coverage[f]);
      assert mask[..] == Burned(coverage[f]);
      var valid := SelectPixels(raster, mask);
      features := features + [ZoneFeature(zones[f].geometry, Summarize(zones[f], valid))];
      f := f + 1;
    }
  }

  // ---------------------------------------------------------------------------
  // NDVI

  /** A decoded raster: size, geotransform, projection, bands (1-based in GDAL) and the
      nodata value of its first band. */
  datatype Raster = Raster(
    width: nat,
    height: nat,
    geoTransform: seq<real>,
    projection: string,
    bands: seq<seq<real>>,
    noData: Option<real>)

  /** A float64 value during the division: a finite number, an infinity, or NaN. */
  datatype Float = Fin(x: real) | PosInf | NegInf | NaN

  /** The most negative finite float64, which `nan_to_num` substitutes for -inf. */
  const LowestFloat64: real := -179769313486231570814527423731704356798070567525844996598917476803157260780028538760589558632766878171540458953514382464234321326889464182768467546703537516986049910576551282076245490090389328944075868508455133942304583236903222948165808559332123348274797826204144723168738177180919299881250404026184124858368.0

  const NoData: real := -999.0

  /** IEEE division of two finite numbers: a zero denominator gives +inf, -inf or NaN by
      the sign of the numerator. */
  function Divide(num: real, den: real): Float
  {
    if den != 0.0 then Fin(num / den)
    else if num > 0.0 then PosInf
    else if num < 0.0 then NegInf
    else NaN
  }

  /** `nan_to_num(v, nan=-999)`: NaN becomes -999, -inf the lowest float64 (and +inf the
      largest, which cannot occur after +inf was turned into NaN). */
  function NanToNum(v: Float): real
  {
    match v
    case Fin(x) => x
    case NaN => NoData
    case NegInf => LowestFloat64
    case PosInf => -LowestFloat64
  }

  /** The NDVI of one pixel as the three array statements compute it. */
  function NdviPixel(nir: real, red: real): real
  {
    var q := Divide(nir - red, nir + red);
    NanToNum(if q == PosInf then NaN else q)
  }

  /** Where `nir + red != 0` the value is `(nir - red) / (nir + red)`; where it is 0 and
      `nir - red >= 0` it is -999; where it is 0 and `nir - red < 0` the -inf escapes the
      -999 rule and becomes the lowest float64. */
  lemma NdviPixelSpec(nir: real, red: real)
    ensures nir + red != 0.0 ==> NdviPixel(nir, red) == (nir - red) / (nir + red)
    ensures nir + red == 0.0 && nir - red >= 0.0 ==> NdviPixel(nir, red) == NoData
    ensures nir + red == 0.0 && nir - red < 0.0 ==> NdviPixel(nir, red) == LowestFloat64
  {
  }

  /** On any band pair `(nir - red) / (nir + red)` lies in [-1, 1] where the band values
      are non-negative and not both zero, so -999 never collides with a computed NDVI. */
  lemma NdviRange(nir: real, red: real)
    requires nir >= 0.0 && red >= 0.0 && nir + red != 0.0
    ensures -1.0 <= NdviPixel(nir, red) <= 1.0
    ensures NdviPixel(nir, red) != NoData
  {
    var s := nir + red;
    assert -s <= nir - red <= s;
    assert (nir - red) / s <= 1.0 by {
      assert (nir - red) <= s;
    }
    assert -1.0 <= (nir - red) / s by {
      assert -s <= nir - red;
    }
  }

  datatype NdviError = BandMissing  // `GetRasterBand` gave None: AttributeError

  /** `calculate_ndvi` on a decoded raster (1-based band numbers). The quotient array is
      computed, then its +inf entries overwritten with NaN in place, then converted. */
  method CalculateNdvi(ds: Raster, redBand: int, nirBand: int) returns (r: Result<Raster, NdviError>)
    requires forall b :: 0 <= b < |ds.bands| ==> |ds.bands[b]| == |ds.bands[0]|
    ensures r.Failure? <==> !(1 <= redBand <= |ds.bands|) || !(1 <= nirBand <= |ds.bands|)
    ensures r.Success? ==>
      var red := ds.bands[redBand - 1];
      var nir := ds.bands[nirBand - 1];
      && r.value.width == ds.width && r.value.height == ds.height
      && r.value.geoTransform == ds.geoTransform && r.value.projection == ds.projection
      && |r.value.bands| == 1 && r.value.noData == Some(NoData)
      && |r.value.bands[0]| == |red|
      && forall k :: 0 <= k < |red| ==> r.value.bands[0][k] == NdviPixel(nir[k], red[k])
  {
    if !(1 <= redBand <= |ds.bands|) || !(1 <= nirBand <= |ds.bands|) {
      return Failure(BandMissing);
    }
    var red := ds.bands[redBand - 1];
    var nir := ds.bands[nirBand - 1];
    var n := |red|;
    var ndvi := new Float[n];
    var k := 0;
    while k < n
      invariant 0 <= k <= n
      invariant forall e :: 0 <= e < k ==> ndvi[e] == Divide(nir[e] - red[e], nir[e] + red[e])
    {
      ndvi[k] := Divide(nir[k] - red[k], nir[k] + red[k]);
      k := k + 1;
    }
    k := 0;
    while k < n
      invariant 0 <= k <= n
      invariant forall e :: 0 <= e < k ==> ndvi[e] == (var q := Divide(nir[e] - red[e], nir[e] + red[e]); if q == PosInf then NaN else q)
      invariant forall e :: k <= e < n ==> ndvi[e] == Divide(nir[e] - red[e], nir[e] + red[e])
    {
      if ndvi[k] == PosInf {
        ndvi[k] := NaN;
      }
      k := k + 1;
    }
    var out: seq<real> := [];
    k := 0;
    while k < n
      invariant 0 <= k <= n
      invariant |out| == k
      invariant forall e :: 0 <= e < k ==> out[e] == NdviPixel(nir[e], red[e])
    {
      out := out + [NanToNum(ndvi[k])];
      k := k + 1;
    }
    r := Success(Raster(ds.width, ds.height, ds.geoTransform, ds.projection, [out], Some(NoData)));
  }
}
