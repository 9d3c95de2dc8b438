/**
 * The JavaScript TopoJSON helpers used by the map components: object lookup, centroids
 * and areas, SDK paths and bounds, bounding-box predicates, and feature lookup/search.
 */
module TopoJs {
  import opened Wrappers
  import opened Text
  import opened Seqs
  import opened Geo
  import Topo

  // ---------------------------------------------------------------- getObjects

  function ObjectMissingMessage(name: string): string
  {
    Topo.NotFoundHead + name + "' " + Topo.ObjectMissingPhrase
  }

  /** `getObjects`: the converted object, or an error naming the missing object. */
  function GetObjects(t: Topo.Topology, name: string, convert: string -> seq<Feature>): (r: Outcome<seq<Feature>>)
    ensures r.Returns? <==> t.objects.Some? && name in t.objects.value
    ensures r.Returns? ==> r.value == convert(name)
    ensures r.Throws? ==> r.message == ObjectMissingMessage(name) && Contains(r.message, Topo.ObjectMissingPhrase)
  {
    if t.objects.None? || name !in t.objects.value then
      var m := ObjectMissingMessage(name);
      assert IsPrefix(Topo.ObjectMissingPhrase, Topo.ObjectMissingPhrase);
      ContainsRight(Topo.NotFoundHead + name + "' ", Topo.ObjectMissingPhrase, Topo.ObjectMissingPhrase);
      Throws(m)
    else
      Returns(convert(name))
  }

  /** Both libraries report a missing object the same way, apart from the list of keys. */
  lemma MissingObjectMessagesAgree(name: string, available: seq<string>)
    ensures Topo.NotFoundMessage(name, available)
         == ObjectMissingMessage(name) + Topo.NotFoundTail + Join(available, ", ")
  {
  }

  // ---------------------------------------------------------------- polygonArea / polygonCentroid

  /** The index the loops pair with `i`: the previous position, wrapping to the last one. */
  function Prev(n: nat, i: nat): nat
    requires i < n
  {
    if i == 0 then n - 1 else i - 1
  }

  /** `xi * yj - xj * yi` for position `i` and its predecessor `j`. */
  function Cross(ring: Ring, i: nat): real
    requires i < |ring|
  {
    var p, q := ring[i], ring[Prev(|ring|, i)];
    p.x * q.y - q.x * p.y
  }

  /** The running sum of the first `n` cross terms (twice the signed area). */
  function CrossSum(ring: Ring, n: nat): real
    requires n <= |ring|
  {
    if n == 0 then 0.0 else CrossSum(ring, n - 1) + Cross(ring, n - 1)
  }

  function MomentX(ring: Ring, n: nat): real
    requires n <= |ring|
  {
    if n == 0 then 0.0
    else MomentX(ring, n - 1) + (ring[n - 1].x + ring[Prev(|ring|, n - 1)].x) * Cross(ring, n - 1)
  }

  function MomentY(ring: Ring, n: nat): real
    requires n <= |ring|
  {
    if n == 0 then 0.0
    else MomentY(ring, n - 1) + (ring[n - 1].y + ring[Prev(|ring|, n - 1)].y) * Cross(ring, n - 1)
  }

  /** `xj * yi - xi * yj`: the term `polygonArea` adds, in the opposite orientation. */
  function AreaTerm(ring: Ring, i: nat): real
    requires i < |ring|
  {
    var p, q := ring[i], ring[Prev(|ring|, i)];
    q.x * p.y - p.x * q.y
  }

  function AreaSum(ring: Ring, n: nat): real
    requires n <= |ring|
  {
    if n == 0 then 0.0 else AreaSum(ring, n - 1) + AreaTerm(ring, n - 1)
  }

  function Abs(r: real): real { if r < 0.0 then -r else r }

  /** The shoelace area of a ring. */
  function AreaOf(ring: Ring): real
  {
    Abs(AreaSum(ring, |ring|)) / 2.0
  }

  /** The centroid of a ring; `None` when the signed area is zero and the division gives `NaN`/infinity. */
  function CentroidOf(ring: Ring): Option<Point>
  {
    var area := CrossSum(ring, |ring|) * 0.5;
    if area == 0.0 then None
    else Some(Point(MomentX(ring, |ring|) / (6.0 * area), MomentY(ring, |ring|) / (6.0 * area)))
  }

  /** `polygonArea` */
  method PolygonArea(ring: Ring) returns (area: real)
    ensures area == AreaOf(ring)
    ensures area >= 0.0
  {
    var sum := 0.0;
    var i := 0;
    while i < |ring|
      invariant 0 <= i <= |ring|
      invariant sum == AreaSum(ring, i)
    {
      var j := if i == 0 then |ring| - 1 else i - 1;
      AreaStep(ring, i, j, ring[j].x * ring[i].y - ring[i].x * ring[j].y);
      sum := sum + (ring[j].x * ring[i].y - ring[i].x * ring[j].y);
      i := i + 1;
    }
    area := (if sum < 0.0 then -sum else sum) / 2.0;
  }

  /** `polygonCentroid` */
  method PolygonCentroid(ring: Ring) returns (c: Option<Point>)
    ensures c == CentroidOf(ring)
  {
    var x, y, area := CentroidSums(ring);
    area := area * 0.5;
    if area == 0.0 {
      c := None;
    } else {
      c := Some(Point(x / (6.0 * area), y / (6.0 * area)));
    }
  }

  /** The accumulation loop of `polygonCentroid`: the two moments and twice the signed area. */
  method CentroidSums(ring: Ring) returns (x: real, y: real, area: real)
    ensures area == CrossSum(ring, |ring|)
    ensures x == MomentX(ring, |ring|) && y == MomentY(ring, |ring|)
  {
    x, y, area := 0.0, 0.0, 0.0;
    var i := 0;
    while i < |ring|
      invariant 0 <= i <= |ring|
      invariant area == CrossSum(ring, i)
      invariant x == MomentX(ring, i) && y == MomentY(ring, i)
    {
      var j := if i == 0 then |ring| - 1 else i - 1;
      var a := ring[i].x * ring[j].y - ring[j].x * ring[i].y;
      CentroidStep(ring, i, j, a);
      area := area + a;
      x := x + (ring[i].x + ring[j].x) * a;
      y := y + (ring[i].y + ring[j].y) * a;
      i := i + 1;
    }
  }

  /** One `polygonArea` iteration adds the term of position `i` and its predecessor `j`. */
  lemma AreaStep(ring: Ring, i: nat, j: nat, t: real)
    requires i < |ring| && j == Prev(|ring|, i)
    requires t == ring[j].x * ring[i].y - ring[i].x * ring[j].y
    ensures AreaSum(ring, i + 1) == AreaSum(ring, i) + t
  {
  }

  /** One `polygonCentroid` iteration adds the cross term `a` and its two moments. */
  lemma CentroidStep(ring: Ring, i: nat, j: nat, a: real)
    requires i < |ring| && j == Prev(|ring|, i)
    requires a == ring[i].x * ring[j].y - ring[j].x * ring[i].y
    ensures CrossSum(ring, i + 1) == CrossSum(ring, i) + a
    ensures MomentX(ring, i + 1) == MomentX(ring, i) + (ring[i].x + ring[j].x) * a
    ensures MomentY(ring, i + 1) == MomentY(ring, i) + (ring[i].y + ring[j].y) * a
  {
    assert Cross(ring, i) == a;
  }

  /** The two loops sum opposite terms: the area is the absolute value of the centroid's signed area. */
  lemma {:induction false} AreaSumIsNegatedCrossSum(ring: Ring, n: nat)
    requires n <= |ring|
    ensures AreaSum(ring, n) == -CrossSum(ring, n)
  {
    if n > 0 {
      AreaSumIsNegatedCrossSum(ring, n - 1);
    }
  }

  lemma AreaIsAbsSignedArea(ring: Ring)
    ensures AreaOf(ring) == Abs(CrossSum(ring, |ring|) * 0.5)
  {
    AreaSumIsNegatedCrossSum(ring, |ring|);
  }

  /** `polygonCentroid` is defined exactly when the ring has non-zero area. */
  lemma CentroidDefinedIff(ring: Ring)
    ensures CentroidOf(ring).Some? <==> AreaOf(ring) > 0.0
  {
    AreaIsAbsSignedArea(ring);
  }

  // ---------------------------------------------------------------- centroid

  predicate NoEmptyPolygon(polys: seq<seq<Ring>>)
  {
    forall k :: 0 <= k < |polys| ==> polys[k] != []
  }

  /** Polygon `k` has the largest exterior-ring area and no earlier polygon has as much. */
  predicate IsFirstLargest(polys: seq<seq<Ring>>, k: int)
    requires NoEmptyPolygon(polys)
  {
    0 <= k < |polys|
    && (forall i :: 0 <= i < |polys| ==> AreaOf(polys[i][0]) <= AreaOf(polys[k][0]))
    && (forall i :: 0 <= i < k ==> AreaOf(polys[i][0]) < AreaOf(polys[k][0]))
  }

  const TypeErrorMessage := "TypeError: Cannot read properties of undefined"

  /**
   * `centroid`: `properties.center` first; a Polygon's exterior ring; for a MultiPolygon the
   * exterior ring with the largest area (the first on ties); `[0, 0]` for other types.
   * Reading a ring out of a missing polygon raises a TypeError.
   */
  method Centroid(f: Feature) returns (r: Outcome<Option<Point>>)
    ensures f.properties.center.Some? ==> r == Returns(f.properties.center)
    ensures f.properties.center.None? && f.geometry.Polygon? ==>
      r == (if f.geometry.rings == [] then Throws(TypeErrorMessage) else Returns(CentroidOf(f.geometry.rings[0])))
    ensures f.properties.center.None? && f.geometry.MultiPolygon? ==>
      var polys := f.geometry.polygons;
      (r.Throws? <==> polys == [] || !NoEmptyPolygon(polys))
      && (r.Returns? ==> exists k :: IsFirstLargest(polys, k) && r.value == CentroidOf(polys[k][0]))
    ensures f.properties.center.None? && f.geometry.OtherGeometry? ==> r == Returns(Some(Point(0.0, 0.0)))
  {
    if f.properties.center.Some? {
      return Returns(f.properties.center);
    }
    match f.geometry {
      case Polygon(rings) =>
        if rings == [] {
          return Throws(TypeErrorMessage);
        }
        var c := PolygonCentroid(rings[0]);
        return Returns(c);
      case MultiPolygon(polys) =>
        if polys == [] {
          return Throws(TypeErrorMessage);
        }
        var largestArea := 0.0;
        var best := 0;
        var i := 0;
        while i < |polys|
          invariant 0 <= i <= |polys| && 0 <= best < |polys|
          invariant forall k :: 0 <= k < i ==> polys[k] != []
          invariant i == 0 ==> best == 0 && largestArea == 0.0
          invariant i > 0 ==> best < i && largestArea == AreaOf(polys[best][0])
          invariant forall k :: 0 <= k < i ==> AreaOf(polys[k][0]) <= largestArea
          invariant forall k :: 0 <= k < best ==> AreaOf(polys[k][0]) < largestArea
        {
          if polys[i] == [] {
            return Throws(TypeErrorMessage);
          }
          var area := PolygonArea(polys[i][0]);
          if area > largestArea {
            largestArea := area;
            best := i;
          }
          i := i + 1;
        }
        assert IsFirstLargest(polys, best);
        var c := PolygonCentroid(polys[best][0]);
        return Returns(c);
      case OtherGeometry(_, _) =>
        return Returns(Some(Point(0.0, 0.0)));
    }
  }

  // ---------------------------------------------------------------- toLatLngPaths / toBounds

  function RingLatLngs(ring: Ring): seq<LatLng>
  {
    seq(|ring|, j requires 0 <= j < |ring| => LatLng(ring[j].y, ring[j].x))
  }

  function RingsLatLngs(rings: seq<Ring>): seq<seq<LatLng>>
  {
    seq(|rings|, i requires 0 <= i < |rings| => RingLatLngs(rings[i]))
  }

  /**
   * `toLatLngPaths`: `LatLng(coord[1], coord[0])` for every position, MultiPolygon rings
   * flattened one level; the same paths as the TypeScript `toLatLngPaths`.
   */
  function ToLatLngPaths(f: Feature): (r: seq<seq<LatLng>>)
    ensures f.geometry.Polygon? ==> |r| == |f.geometry.rings|
    ensures f.geometry.Polygon? ==> forall i :: 0 <= i < |r| ==>
      |r[i]| == |f.geometry.rings[i]|
      && (forall j :: 0 <= j < |r[i]| ==> r[i][j] == LatLng(f.geometry.rings[i][j].y, f.geometry.rings[i][j].x))
    ensures f.geometry.MultiPolygon? ==> r == Topo.MultiPolygonPaths(f.geometry.polygons)
    ensures f.geometry.OtherGeometry? ==> r == []
  {
    match f.geometry
    case Polygon(rings) => RingsLatLngs(rings)
    case MultiPolygon(polys) =>
      FlattenIsMultiPolygonPaths(polys);
      Flatten(seq(|polys|, k requires 0 <= k < |polys| => RingsLatLngs(polys[k])))
    case OtherGeometry(_, _) => []
  }

  lemma {:induction false} FlattenIsMultiPolygonPaths(polys: seq<seq<Ring>>)
    ensures Flatten(seq(|polys|, k requires 0 <= k < |polys| => RingsLatLngs(polys[k])))
         == Topo.MultiPolygonPaths(polys)
  {
    var xs := seq(|polys|, k requires 0 <= k < |polys| => RingsLatLngs(polys[k]));
    if polys != [] {
      FlattenIsMultiPolygonPaths(polys[1..]);
      assert xs[1..] == seq(|polys[1..]|, k requires 0 <= k < |polys[1..]| => RingsLatLngs(polys[1..][k]));
      assert xs[0] == Topo.PolygonPaths(polys[0]);
    }
  }

  /** Both libraries produce the same SDK paths for every feature. */
  lemma ToLatLngPathsAgrees(f: Feature)
    ensures ToLatLngPaths(f) == Topo.ToKakaoPolygonPaths(f)
  {
    match f.geometry
    case Polygon(rings) =>
      assert RingsLatLngs(rings) == Topo.PolygonPaths(rings);
    case MultiPolygon(polys) =>
      FlattenIsMultiPolygonPaths(polys);
    case OtherGeometry(_, _) =>
  }

  /** `toBounds`: the SDK bounds from `[minX, minY, maxX, maxY]`; `None` when entries are missing. */
  function ToBounds(bbox: seq<real>): (r: Option<Topo.Corners>)
    ensures r.Some? <==> |bbox| >= 4
    ensures r.Some? ==> r.value.sw == LatLng(bbox[1], bbox[0]) && r.value.ne == LatLng(bbox[3], bbox[2])
  {
    if |bbox| < 4 then None
    else Some(Topo.Corners(LatLng(bbox[1], bbox[0]), LatLng(bbox[3], bbox[2])))
  }

  /** `toBounds` and `getBbox` give the same corners for a well-formed bbox. */
  lemma ToBoundsAgreesWithGetBbox(bbox: seq<real>)
    requires |bbox| == 4
    ensures ToBounds(bbox) == Some(Topo.GetBbox(Some(bbox)).value)
  {
  }

  // ---------------------------------------------------------------- getBounds

  /** `getBounds`, the same walk as `calculateBbox`. */
  method GetBounds(f: Feature) returns (r: Option<seq<real>>)
    ensures r == Topo.BboxOf(f)
    ensures f.properties.bbox.Some? ==> r == f.properties.bbox
    ensures f.properties.bbox.None? && r.Some? ==>
      forall k :: 0 <= k < |Points(f.geometry)| ==> Inside(Box(r.value[0], r.value[1], r.value[2], r.value[3]), Points(f.geometry)[k])
  {
    r := Topo.CalculateBbox(f);
    if f.properties.bbox.None? && r.Some? {
      Topo.CalculatedBboxCovers(f);
    }
  }

  // ---------------------------------------------------------------- box predicates

  predicate WellFormed(b: Box)
  {
    b.minX <= b.maxX && b.minY <= b.maxY
  }

  /** `pointInBbox`: only a well-formed box holds a point. */
  predicate PointInBbox(p: Point, b: Box): (r: bool)
    ensures r ==> WellFormed(b)
  {
    p.x >= b.minX && p.x <= b.maxX && p.y >= b.minY && p.y <= b.maxY
  }

  /** `bboxIntersects`: two well-formed boxes intersect exactly when some point lies in both. */
  predicate BboxIntersects(a: Box, b: Box): (r: bool)
    ensures WellFormed(a) && WellFormed(b) ==> (r <==> exists p :: PointInBbox(p, a) && PointInBbox(p, b))
  {
    var corner := Point(if a.minX < b.minX then b.minX else a.minX, if a.minY < b.minY then b.minY else a.minY);
    assert WellFormed(a) && WellFormed(b) && !(a.maxX < b.minX || b.maxX < a.minX || a.maxY < b.minY || b.maxY < a.minY)
      ==> PointInBbox(corner, a) && PointInBbox(corner, b);
    !(a.maxX < b.minX || b.maxX < a.minX || a.maxY < b.minY || b.maxY < a.minY)
  }

  lemma BboxIntersectsSymmetric(a: Box, b: Box)
    ensures BboxIntersects(a, b) == BboxIntersects(b, a)
  {
  }

  /** Boxes that share only an edge intersect. */
  lemma TouchingBoxesIntersect(a: Box, b: Box)
    requires WellFormed(a) && WellFormed(b)
    requires a.maxX == b.minX && a.minY <= b.maxY && b.minY <= a.maxY
    ensures BboxIntersects(a, b)
  {
  }

  /** Membership is intersection with the degenerate box at the point. */
  lemma PointInBboxIsDegenerateIntersection(p: Point, b: Box)
    ensures PointInBbox(p, b) == BboxIntersects(Box(p.x, p.y, p.x, p.y), b)
  {
  }

  /** For well-formed boxes, intersecting means having a point in common. */
  lemma BboxIntersectsIffCommonPoint(a: Box, b: Box)
    requires WellFormed(a) && WellFormed(b)
    ensures BboxIntersects(a, b) <==> exists p :: PointInBbox(p, a) && PointInBbox(p, b)
  {
    if BboxIntersects(a, b) {
      var p := Point(Max(a.minX, b.minX), Max(a.minY, b.minY));
      assert PointInBbox(p, a) && PointInBbox(p, b);
    }
  }

  // ---------------------------------------------------------------- lookup and search

  predicate MatchesId(f: Feature, id: string)
  {
    f.id == Some(id) || f.properties.code == Some(id)
  }

  /** `findFeatureById`: the first feature whose id or code is `id`, else `None` (null). */
  function FindFeatureById(features: seq<Feature>, id: string): (r: Option<Feature>)
    ensures r.None? <==> forall k :: 0 <= k < |features| ==> !MatchesId(features[k], id)
    ensures r.Some? ==>
      exists k :: (0 <= k < |features| && features[k] == r.value && MatchesId(r.value, id)
                   && forall i :: 0 <= i < k ==> !MatchesId(features[i], id))
  {
    if features == [] then None
    else if MatchesId(features[0], id) then Some(features[0])
    else
      var r := FindFeatureById(features[1..], id);
      assert r.Some? ==>
        exists k :: (0 <= k < |features| && features[k] == r.value && MatchesId(r.value, id)
                     && forall i :: 0 <= i < k ==> !MatchesId(features[i], id)) by {
        if r.Some? {
          var k :| 0 <= k < |features[1..]| && features[1..][k] == r.value && MatchesId(r.value, id)
            && forall i :: 0 <= i < k ==> !MatchesId(features[1..][i], id);
          assert features[k + 1] == r.value;
          assert forall i :: 0 <= i < k + 1 ==> !MatchesId(features[i], id) by {
            forall i | 0 <= i < k + 1
              ensures !MatchesId(features[i], id)
            {
              if i > 0 {
                assert features[i] == features[1..][i - 1];
              }
            }
          }
        }
      }
      r
  }

  predicate NameMatches(f: Feature, q: string)
  {
    f.properties.name.Some? && f.properties.name.value != ""
    && Contains(ToLower(f.properties.name.value), q)
  }

  /** `searchFeatures`: at most the features given, each with a name containing the trimmed lower-cased query. */
  function SearchFeatures(features: seq<Feature>, query: string): (r: seq<Feature>)
    ensures |r| <= |features|
    ensures forall k :: 0 <= k < |r| ==> NameMatches(r[k], Trim(ToLower(query)))
  {
    var q := Trim(ToLower(query));
    Filter((f: Feature) => NameMatches(f, q), features)
  }

  /** The search keeps, in order, exactly the named features whose lower-cased name contains the query. */
  lemma SearchFeaturesSpec(features: seq<Feature>, query: string)
    ensures var r := SearchFeatures(features, query);
      |r| <= |features|
      && (forall f :: f in r <==> f in features && NameMatches(f, Trim(ToLower(query))))
  {
    var q := Trim(ToLower(query));
    var p := (f: Feature) => NameMatches(f, q);
    forall f
      ensures f in Filter(p, features) <==> f in features && NameMatches(f, q)
    {
      FilterMembership(p, features, f);
    }
  }

  /** The search over a concatenation is the concatenation of the searches (order is kept). */
  lemma SearchFeaturesAppend(a: seq<Feature>, b: seq<Feature>, query: string)
    ensures SearchFeatures(a + b, query) == SearchFeatures(a, query) + SearchFeatures(b, query)
  {
    var q := Trim(ToLower(query));
    FilterAppend((f: Feature) => NameMatches(f, q), a, b);
  }

  /** A blank query finds every feature with a non-empty name. */
  lemma BlankQueryFindsNamed(features: seq<Feature>, query: string, f: Feature)
    requires AllSpace(query)
    ensures f in SearchFeatures(features, query)
        <==> f in features && f.properties.name.Some? && f.properties.name.value != ""
  {
    TrimEmptyIff(ToLower(query));
    assert AllSpace(ToLower(query));
    SearchFeaturesSpec(features, query);
    if f.properties.name.Some? {
      assert IsPrefix("", ToLower(f.properties.name.value));
    }
  }
}
