/** The draft uavstats/zonalstats.py: the bounding box of a zone's exterior ring(s)
    and the pixel window read from the value raster, whose georeference is the fixed
    geotransform the draft writes into it. Reading the raster and the layer,
    reprojecting the geometry and the masked statistics are not modelled. */
module ZonalStats {
  import opened Wrappers
  import Processes

  datatype Point = Point(x: real, y: real, z: real)

  /** A ring is its points; a polygon its rings, the first being the exterior. */
  datatype Geometry =
    | Polygon(rings: seq<seq<Point>>)
    | MultiPolygon(polygons: seq<seq<seq<Point>>>)
    | Other(name: string)

  datatype ZoneError =
    | NotPolygonal   // ProcessorExecuteError: neither POLYGON nor MULTIPOLYGON
    | NoExterior     // a polygon without rings: `GetGeometryRef(0)` is None
    | NoPoints       // `min()` of an empty point list: ValueError
    | NoFeature      // the layer is empty: `GetNextFeature()` is None

  function Xs(ring: seq<Point>): (xs: seq<real>)
    ensures |xs| == |ring| && forall k :: 0 <= k < |ring| ==> xs[k] == ring[k].x
  {
    if ring == [] then [] else Xs(ring[..|ring| - 1]) + [ring[|ring| - 1].x]
  }

  function Ys(ring: seq<Point>): (ys: seq<real>)
    ensures |ys| == |ring| && forall k :: 0 <= k < |ring| ==> ys[k] == ring[k].y
  {
    if ring == [] then [] else Ys(ring[..|ring| - 1]) + [ring[|ring| - 1].y]
  }

  /** The exterior rings of the member polygons, in order; None if one has no ring. */
  function Exteriors(polygons: seq<seq<seq<Point>>>): (r: Option<seq<Point>>)
    ensures r.Some? <==> forall k :: 0 <= k < |polygons| ==> polygons[k] != []
  {
    if polygons == [] then Some([])
    else
      var last := polygons[|polygons| - 1];
      match Exteriors(polygons[..|polygons| - 1])
      case None => None
      case Some(points) => if last == [] then None else Some(points + last[0])
  }

  /** The exterior ring points of every member polygon, concatenated in order. */
  lemma {:induction false} ExteriorsSnoc(polygons: seq<seq<seq<Point>>>, i: nat)
    requires i < |polygons| && polygons[i] != []
    requires Exteriors(polygons[..i]).Some?
    ensures Exteriors(polygons[..i + 1]) == Some(Exteriors(polygons[..i]).value + polygons[i][0])
  {
    assert polygons[..i + 1][..i] == polygons[..i];
  }

  /** The points whose coordinates make up the extent. */
  function ExtentPoints(g: Geometry): Result<seq<Point>, ZoneError>
  {
    match g
    case MultiPolygon(polygons) =>
      (match Exteriors(polygons) case None => Failure(NoExterior) case Some(points) => Success(points))
    case Polygon(rings) => if rings == [] then Failure(NoExterior) else Success(rings[0])
    case Other(_) => Failure(NotPolygonal)
  }

  lemma CoordsAppend(a: seq<Point>, b: seq<Point>)
    ensures Xs(a + b) == Xs(a) + Xs(b) && Ys(a + b) == Ys(a) + Ys(b)
  {
  }

  /** The inner loop: append each point of a ring's coordinates. */
  method AppendRing(xs: seq<real>, ys: seq<real>, ring: seq<Point>) returns (xs': seq<real>, ys': seq<real>)
    ensures xs' == xs + Xs(ring) && ys' == ys + Ys(ring)
  {
    xs', ys' := xs, ys;
    var p := 0;
    while p < |ring|
      invariant 0 <= p <= |ring|
      invariant xs' == xs + Xs(ring[..p]) && ys' == ys + Ys(ring[..p])
    {
      assert ring[..p + 1] == ring[..p] + [ring[p]];
      CoordsAppend(ring[..p], [ring[p]]);
      xs' := xs' + [ring[p].x];
      ys' := ys' + [ring[p].y];
      p := p + 1;
    }
    assert ring[..p] == ring;
  }

  /** The collected point lists of `zonal_stats`, built by appending as the source
      does: for a MULTIPOLYGON the exterior ring of each member in order, for a
      POLYGON its exterior ring, and anything else is refused. */
  method CollectPoints(g: Geometry) returns (r: Result<(seq<real>, seq<real>), ZoneError>)
    ensures ExtentPoints(g).Failure? ==> r == Failure(ExtentPoints(g).error)
    ensures ExtentPoints(g).Success? ==> r == Success((Xs(ExtentPoints(g).value), Ys(ExtentPoints(g).value)))
  {
    var pointsX: seq<real> := [];
    var pointsY: seq<real> := [];
    match g
    case MultiPolygon(polygons) =>
      ghost var collected: seq<Point> := [];
      var count := 0;
      while count < |polygons|
        invariant 0 <= count <= |polygons|
        invariant Exteriors(polygons[..count]) == Some(collected)
        invariant pointsX == Xs(collected) && pointsY == Ys(collected)
      {
        if polygons[count] == [] {
          PrefixNoExterior(polygons, count);
          return Failure(NoExterior);
        }
        pointsX, pointsY := AppendRing(pointsX, pointsY, polygons[count][0]);
        CoordsAppend(collected, polygons[count][0]);
        ExteriorsSnoc(polygons, count);
        collected := collected + polygons[count][0];
        count := count + 1;
      }
      assert polygons[..count] == polygons;
      return Success((pointsX, pointsY));
    case Polygon(rings) =>
      if rings == [] {
        return Failure(NoExterior);
      }
      pointsX, pointsY := AppendRing(pointsX, pointsY, rings[0]);
      assert pointsX == Xs(rings[0]) && pointsY == Ys(rings[0]);
      return Success((pointsX, pointsY));
    case Other(_) =>
      return Failure(NotPolygonal);
  }

  /** A member polygon without rings makes the whole geometry fail. */
  lemma {:induction false} PrefixNoExterior(polygons: seq<seq<seq<Point>>>, i: nat)
    requires i < |polygons| && polygons[i] == []
    ensures Exteriors(polygons).None?
  {
    assert polygons[i] == polygons[i];
  }

  /** `int(v)`: truncation toward zero. */
  function Trunc(v: real): (n: int)
    ensures v >= 0.0 ==> n >= 0 && n as real <= v < n as real + 1.0
    ensures v < 0.0 ==> n <= 0 && n as real - 1.0 < v <= n as real
  {
    if v >= 0.0 then v.Floor else -((-v).Floor)
  }

  /** The georeference the draft writes into the value raster: the upper-left corner
      and the pixel width (the height is not used by the window). */
  const XOrigin: real := 10.626763017
  const YOrigin: real := 49.208020635
  const PixelWidth: real := 0.000002802632411067409

  datatype Extent = Extent(xmin: real, xmax: real, ymin: real, ymax: real)

  /** The read window: offsets and sizes in pixels. */
  datatype Window = Window(xoff: int, yoff: int, xcount: int, ycount: int)

  /** The min and max of the collected x and y coordinates. */
  function ExtentOf(points: seq<Point>): (e: Extent)
    requires points != []
  {
    Extent(Processes.MinOf(Xs(points)), Processes.MaxOf(Xs(points)), Processes.MinOf(Ys(points)), Processes.MaxOf(Ys(points)))
  }

  /** The extent is the tightest box around the points: every point lies in it and
      each side touches a point. */
  lemma ExtentOfSpec(points: seq<Point>)
    requires points != []
    ensures var e := ExtentOf(points);
      && (forall k :: 0 <= k < |points| ==> e.xmin <= points[k].x <= e.xmax && e.ymin <= points[k].y <= e.ymax)
      && (exists k :: 0 <= k < |points| && points[k].x == e.xmin)
      && (exists k :: 0 <= k < |points| && points[k].x == e.xmax)
      && (exists k :: 0 <= k < |points| && points[k].y == e.ymin)
      && (exists k :: 0 <= k < |points| && points[k].y == e.ymax)
  {
    var xs := Xs(points);
    var ys := Ys(points);
    Processes.MinMaxSpec(xs);
    Processes.MinMaxSpec(ys);
    assert forall k :: 0 <= k < |points| ==> xs[k] in xs && ys[k] in ys;
    var a :| 0 <= a < |xs| && xs[a] == Processes.MinOf(xs);
    var b :| 0 <= b < |xs| && xs[b] == Processes.MaxOf(xs);
    var c :| 0 <= c < |ys| && ys[c] == Processes.MinOf(ys);
    var d :| 0 <= d < |ys| && ys[d] == Processes.MaxOf(ys);
  }

  /** The window of an extent; the y offset and both counts are scaled by the pixel
      width as well. */
  function WindowOf(e: Extent): Window
  {
    Window(
      Trunc((e.xmin - XOrigin) / PixelWidth),
      Trunc((YOrigin - e.ymax) / PixelWidth),
      Trunc((e.xmax - e.xmin) / PixelWidth) + 1,
      Trunc((e.ymax - e.ymin) / PixelWidth) + 1)
  }

  /** For a box with `xmin <= xmax` and `ymin <= ymax` both counts are at least 1, and
      each count covers the span: `(count - 1) * pixelWidth <= span < count * pixelWidth`. */
  lemma WindowOfSpec(e: Extent)
    requires e.xmin <= e.xmax && e.ymin <= e.ymax
    ensures var w := WindowOf(e);
      && w.xcount >= 1 && w.ycount >= 1
      && (w.xcount - 1) as real * PixelWidth <= e.xmax - e.xmin < w.xcount as real * PixelWidth
      && (w.ycount - 1) as real * PixelWidth <= e.ymax - e.ymin < w.ycount as real * PixelWidth
  {
    var w := WindowOf(e);
    var qx := (e.xmax - e.xmin) / PixelWidth;
    var qy := (e.ymax - e.ymin) / PixelWidth;
    assert qx * PixelWidth == e.xmax - e.xmin;
    assert qy * PixelWidth == e.ymax - e.ymin;
    assert (w.xcount - 1) as real <= qx < w.xcount as real;
    assert (w.ycount - 1) as real <= qy < w.ycount as real;
  }

  /** `zonal_stats(feat, zones, raster)` up to the read window. The `feat` argument is
      not used: the window always comes from the first feature of the freshly opened
      layer (`features`, already reprojected). */
  function ZoneWindow(feat: int, features: seq<Geometry>): Result<Window, ZoneError>
  {
    if features == [] then Failure(NoFeature)
    else match ExtentPoints(features[0])
      case Failure(e) => Failure(e)
      case Success(points) => if points == [] then Failure(NoPoints) else Success(WindowOf(ExtentOf(points)))
  }

  /** The result does not depend on `feat`. */
  lemma ZoneWindowIgnoresFeat(a: int, b: int, features: seq<Geometry>)
    ensures ZoneWindow(a, features) == ZoneWindow(b, features)
    ensures features != [] && ExtentPoints(features[0]).Success? && ExtentPoints(features[0]).value != [] ==>
      ZoneWindow(a, features) == Success(WindowOf(ExtentOf(ExtentPoints(features[0]).value)))
  {
  }

  /** `loop_zonal_stats`: one entry per FID in `0 .. count - 1`, stopping at the first
      error. `features` is the layer, `count` its feature count. */
  method LoopZonalStats(features: seq<Geometry>) returns (r: Result<map<int, Window>, ZoneError>)
    ensures r.Success? ==>
      && (forall fid :: fid in r.value <==> 0 <= fid < |features|)
      && forall fid :: fid in r.value ==> Success(r.value[fid]) == ZoneWindow(fid, features)
    ensures r.Failure? ==> features != [] && ZoneWindow(0, features) == Failure(r.error)
    ensures features != [] && ZoneWindow(0, features).Failure? ==> r.Failure?
  {
    var statDict: map<int, Window> := map[];
    var fid := 0;
    while fid < |features|
      invariant 0 <= fid <= |features|
      invariant forall k :: k in statDict <==> 0 <= k < fid
      invariant forall k :: k in statDict ==> Success(statDict[k]) == ZoneWindow(k, features)
    {
      var value := ZoneWindow(fid, features);
      if value.Failure? {
        ZoneWindowIgnoresFeat(fid, 0, features);
        return Failure(value.error);
      }
      statDict := statDict[fid := value.value];
      fid := fid + 1;
    }
    return Success(statDict);
  }

  /** Every entry of the dictionary is the same window: the one of the layer's first
      feature. */
  lemma LoopZonalStatsSame(features: seq<Geometry>, statDict: map<int, Window>)
    requires forall fid :: fid in statDict ==> Success(statDict[fid]) == ZoneWindow(fid, features)
    ensures forall a, b :: a in statDict && b in statDict ==> statDict[a] == statDict[b]
  {
    forall a, b | a in statDict && b in statDict
      ensures statDict[a] == statDict[b]
    {
      ZoneWindowIgnoresFeat(a, b, features);
    }
  }
}
