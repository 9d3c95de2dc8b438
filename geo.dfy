/**
 * GeoJSON values as the geometry helpers see them: positions are `[lng, lat]` pairs
 * (`x` = longitude, `y` = latitude), polygons are lists of rings, and the map SDKs take
 * `LatLng` values in the opposite order.
 */
module Geo {
  import opened Wrappers

  datatype Point = Point(x: real, y: real)

  /** A map SDK coordinate (`new kakao.maps.LatLng(lat, lng)`). */
  datatype LatLng = LatLng(lat: real, lng: real)

  datatype Box = Box(minX: real, minY: real, maxX: real, maxY: real)

  type Ring = seq<Point>

  /**
   * `Polygon` and `MultiPolygon` are the geometry types the helpers branch on; any other
   * geometry type keeps its `type` string and its positions in traversal order.
   */
  datatype Geometry =
    | Polygon(rings: seq<Ring>)
    | MultiPolygon(polygons: seq<seq<Ring>>)
    | OtherGeometry(kind: string, points: seq<Point>)

  /** The `properties` the helpers read; a missing property is `None`. */
  datatype Properties = Properties(
    code: Option<string>,
    name: Option<string>,
    center: Option<Point>,
    bbox: Option<seq<real>>,
    parent: Option<string>)

  datatype Feature = Feature(id: Option<string>, properties: Properties, geometry: Geometry)

  function Min(a: real, b: real): real { if a <= b then a else b }
  function Max(a: real, b: real): real { if a >= b then a else b }

  predicate Inside(b: Box, p: Point)
  {
    b.minX <= p.x <= b.maxX && b.minY <= p.y <= b.maxY
  }

  /** The box stretched to cover one more position (`Math.min` / `Math.max` on each side). */
  function Grow(b: Box, p: Point): Box
  {
    Box(Min(b.minX, p.x), Min(b.minY, p.y), Max(b.maxX, p.x), Max(b.maxY, p.y))
  }

  /** The smallest box covering a non-empty list of positions, built left to right. */
  function Hull(pts: seq<Point>): Box
    requires |pts| > 0
  {
    var p := pts[|pts| - 1];
    if |pts| == 1 then Box(p.x, p.y, p.x, p.y) else Grow(Hull(pts[..|pts| - 1]), p)
  }

  /** Every position lies in the hull. */
  lemma {:induction false} HullCovers(pts: seq<Point>)
    requires |pts| > 0
    ensures forall k :: 0 <= k < |pts| ==> Inside(Hull(pts), pts[k])
  {
    if |pts| > 1 {
      var init := pts[..|pts| - 1];
      HullCovers(init);
      forall k | 0 <= k < |pts| - 1
        ensures Inside(Hull(pts), pts[k])
      {
        assert pts[k] == init[k];
      }
    }
  }

  /** Every side of the hull is touched by some position, so no smaller box covers them. */
  lemma {:induction false} HullTight(pts: seq<Point>)
    requires |pts| > 0
    ensures exists k :: 0 <= k < |pts| && pts[k].x == Hull(pts).minX
    ensures exists k :: 0 <= k < |pts| && pts[k].y == Hull(pts).minY
    ensures exists k :: 0 <= k < |pts| && pts[k].x == Hull(pts).maxX
    ensures exists k :: 0 <= k < |pts| && pts[k].y == Hull(pts).maxY
  {
    var last := |pts| - 1;
    if |pts| > 1 {
      var init := pts[..last];
      HullTight(init);
      var h := Hull(init);
      var a :| 0 <= a < |init| && init[a].x == h.minX;
      var b :| 0 <= b < |init| && init[b].y == h.minY;
      var c :| 0 <= c < |init| && init[c].x == h.maxX;
      var d :| 0 <= d < |init| && init[d].y == h.maxY;
      assert pts[a] == init[a] && pts[b] == init[b] && pts[c] == init[c] && pts[d] == init[d];
      assert pts[last].x == Hull(pts).minX || pts[a].x == Hull(pts).minX;
      assert pts[last].y == Hull(pts).minY || pts[b].y == Hull(pts).minY;
      assert pts[last].x == Hull(pts).maxX || pts[c].x == Hull(pts).maxX;
      assert pts[last].y == Hull(pts).maxY || pts[d].y == Hull(pts).maxY;
    } else {
      assert pts[0].x == Hull(pts).minX;
    }
  }

  /** A hull's minimum never exceeds its maximum. */
  lemma HullOrdered(pts: seq<Point>)
    requires |pts| > 0
    ensures Hull(pts).minX <= Hull(pts).maxX && Hull(pts).minY <= Hull(pts).maxY
  {
    HullCovers(pts);
    assert Inside(Hull(pts), pts[0]);
  }

  /** The positions of a list of rings, in traversal order. */
  function RingsPoints(rings: seq<Ring>): seq<Point>
  {
    if rings == [] then [] else RingsPoints(rings[..|rings| - 1]) + rings[|rings| - 1]
  }

  function PolygonsPoints(polys: seq<seq<Ring>>): seq<Point>
  {
    if polys == [] then [] else PolygonsPoints(polys[..|polys| - 1]) + RingsPoints(polys[|polys| - 1])
  }

  /** Every position of a geometry, in the order a depth-first walk meets them. */
  function Points(g: Geometry): seq<Point>
  {
    match g
    case Polygon(rings) => RingsPoints(rings)
    case MultiPolygon(polys) => PolygonsPoints(polys)
    case OtherGeometry(_, pts) => pts
  }

  predicate HasEmptyRing(rings: seq<Ring>)
  {
    exists k :: 0 <= k < |rings| && rings[k] == []
  }

  /**
   * The coordinate nesting holds an empty array somewhere. A depth-first walk then reads
   * `[x, y]` out of `[]`, and every bound it keeps becomes `NaN`.
   */
  predicate HasEmptyArray(g: Geometry)
  {
    match g
    case Polygon(rings) => rings == [] || HasEmptyRing(rings)
    case MultiPolygon(polys) =>
      polys == [] || (exists k :: 0 <= k < |polys| && (polys[k] == [] || HasEmptyRing(polys[k])))
    case OtherGeometry(_, pts) => pts == []
  }

  /** Bounds of a geometry: its hull, or `NonFinite` when a walk would produce `NaN`. */
  datatype Bounds = Finite(box: Box) | NonFinite

  function BoundsOf(g: Geometry): Bounds
  {
    if HasEmptyArray(g) || |Points(g)| == 0 then NonFinite else Finite(Hull(Points(g)))
  }

  lemma {:induction false} RingsPointsNonEmpty(rings: seq<Ring>)
    requires rings != [] && !HasEmptyRing(rings)
    ensures |RingsPoints(rings)| > 0
  {
    assert rings[|rings| - 1] != [];
  }

  /** A geometry without an empty array has at least one position. */
  lemma NonEmptyHasPoints(g: Geometry)
    requires !HasEmptyArray(g)
    ensures |Points(g)| > 0
  {
    match g
    case Polygon(rings) =>
      RingsPointsNonEmpty(rings);
    case MultiPolygon(polys) =>
      var last := polys[|polys| - 1];
      assert last != [] && !HasEmptyRing(last);
      RingsPointsNonEmpty(last);
    case OtherGeometry(_, _) =>
  }

  /** Finite bounds cover every position of the geometry and each side is touched. */
  lemma BoundsCover(g: Geometry)
    requires BoundsOf(g).Finite?
    ensures forall k :: 0 <= k < |Points(g)| ==> Inside(BoundsOf(g).box, Points(g)[k])
    ensures exists k :: 0 <= k < |Points(g)| && Points(g)[k].x == BoundsOf(g).box.minX
    ensures exists k :: 0 <= k < |Points(g)| && Points(g)[k].y == BoundsOf(g).box.minY
    ensures exists k :: 0 <= k < |Points(g)| && Points(g)[k].x == BoundsOf(g).box.maxX
    ensures exists k :: 0 <= k < |Points(g)| && Points(g)[k].y == BoundsOf(g).box.maxY
  {
    HullCovers(Points(g));
    HullTight(Points(g));
  }

  /** Bounds are non-finite exactly when the coordinates hold an empty array. */
  lemma BoundsFiniteIff(g: Geometry)
    ensures BoundsOf(g).NonFinite? <==> HasEmptyArray(g)
  {
    if !HasEmptyArray(g) {
      NonEmptyHasPoints(g);
    }
  }
}
