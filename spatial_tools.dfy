/** uavstats/spatial_tools.py: growing a polygon layer's extent by a buffer given in
    metres, and choosing how a raster is reprojected and clipped to it. The cosine of a
    latitude and the GDAL operations are inputs. */
module SpatialTools {
  import opened Wrappers

  /** An extent in GDAL's `(xmin, xmax, ymin, ymax)` order, in degrees. */
  datatype Extent = Extent(xmin: real, xmax: real, ymin: real, ymax: real)

  /** Metres per degree of latitude. */
  const MetresPerDegree: real := 111320.0

  /** `apply_buffer_to_extent(extent, d)`; `cosDeg(a)` is `cos(radians(a))`. None when
      the longitude divisor is 0 (ZeroDivisionError). */
  function ApplyBuffer(e: Extent, d: real, cosDeg: real -> real): Option<Extent>
  {
    var lat := d / MetresPerDegree;
    var divisor := MetresPerDegree * cosDeg((e.ymin + e.ymax) / 2.0);
    if divisor == 0.0 then None
    else
      var lon := d / divisor;
      Some(Extent(e.xmin - lon, e.xmax + lon, e.ymin - lat, e.ymax + lat))
  }

  /** y moves out by `d / 111320` on both sides and x by `d / (111320 * cos(mid))`,
      with the mid-latitude of the original extent; so the centre stays put, a zero
      buffer changes nothing, and a non-negative buffer with a positive cosine gives
      an extent containing the original. */
  lemma ApplyBufferSpec(e: Extent, d: real, cosDeg: real -> real)
    ensures ApplyBuffer(e, d, cosDeg).None? <==> cosDeg((e.ymin + e.ymax) / 2.0) == 0.0
    ensures ApplyBuffer(e, d, cosDeg).Some? ==>
      var b := ApplyBuffer(e, d, cosDeg).value;
      var lon := d / (MetresPerDegree * cosDeg((e.ymin + e.ymax) / 2.0));
      && b.ymin == e.ymin - d / MetresPerDegree && b.ymax == e.ymax + d / MetresPerDegree
      && b.xmin == e.xmin - lon && b.xmax == e.xmax + lon
      && b.xmin + b.xmax == e.xmin + e.xmax && b.ymin + b.ymax == e.ymin + e.ymax
      && (d == 0.0 ==> b == e)
      && (d >= 0.0 && cosDeg((e.ymin + e.ymax) / 2.0) > 0.0 ==>
            b.xmin <= e.xmin && e.xmax <= b.xmax && b.ymin <= e.ymin && e.ymax <= b.ymax)
  {
    var c := cosDeg((e.ymin + e.ymax) / 2.0);
    if c != 0.0 && d >= 0.0 && c > 0.0 {
      assert MetresPerDegree * c > 0.0;
      assert d / (MetresPerDegree * c) >= 0.0;
    }
  }

  /** A raster dataset: its projection string and an opaque handle. */
  datatype Dataset = Dataset(projection: string, handle: int)

  /** The polygon layer: its extent and the WKT of its spatial reference (None when it
      has none). */
  datatype Layer = Layer(extent: Extent, srsWkt: Option<string>)

  /** GDAL as `clip_raster` uses it: `warp(ds, wkt)` reprojects to `wkt`,
      `translate(ds, window)` cuts out `[ulx, uly, lrx, lry]` (None on failure). */
  datatype Gdal = Gdal(warp: (Dataset, string) -> Dataset, translate: (Dataset, seq<real>) -> Option<Dataset>)

  /** The buffer `clip_raster` applies, in metres. */
  const ClipBuffer: real := 2.0

  /** `clip_raster(raster, layer)`: the clipped dataset, whether it reprojected, and the
      window it cut. None for the ZeroDivisionError of the buffer. */
  method ClipRaster(gdal: Gdal, raster: Dataset, layer: Layer, cosDeg: real -> real)
    returns (r: Option<(Option<Dataset>, bool, seq<real>)>)
    ensures ApplyBuffer(layer.extent, ClipBuffer, cosDeg).None? <==> r.None?
    ensures r.Some? ==>
      var b := ApplyBuffer(layer.extent, ClipBuffer, cosDeg).value;
      var (clipped, reprojected, window) := r.value;
      && (reprojected <==> layer.srsWkt.Some? && layer.srsWkt.value != raster.projection)
      && window == [b.xmin, b.ymax, b.xmax, b.ymin]
      && clipped == gdal.translate(if reprojected then gdal.warp(raster, layer.srsWkt.value) else raster, window)
  {
    var buffered := ApplyBuffer(layer.extent, ClipBuffer, cosDeg);
    if buffered.None? {
      return None;
    }
    var b := buffered.value;
    var source := raster;
    var reprojected := false;
    if layer.srsWkt.Some? && layer.srsWkt.value != raster.projection {
      source := gdal.warp(raster, layer.srsWkt.value);
      reprojected := true;
    }
    var window := [b.xmin, b.ymax, b.xmax, b.ymin];
    var clipped := gdal.translate(source, window);
    return Some((clipped, reprojected, window));
  }
}
