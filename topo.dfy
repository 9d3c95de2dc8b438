/**
 * The TopoJSON helper library of the region picker (TypeScript): object lookup,
 * coordinate order for the map SDKs, bounding boxes, centres, polygon paths, samples
 * and user-facing error messages.
 */
module Topo {
  import opened Wrappers
  import opened Js
  import opened Text
  import opened Seqs
  import opened Geo

  /** A JSON value as `ensureLatLngOrder` inspects it. */
  datatype Json = JNum(n: real) | JArr(items: seq<Json>) | JOther(text: string)

  // ---------------------------------------------------------------- toGeoJSON

  /**
   * A topology: the names of its `objects` in key order (or no `objects` at all), and
   * the foreign `topojson.feature` conversion of a named object.
   */
  datatype Topology = Topology(objects: Option<seq<string>>)

  const NotFoundHead := "TopoJSON에서 '"
  const NotFoundTail := ". 사용 가능한 키: "

  function NotFoundMessage(key: string, available: seq<string>): string
  {
    NotFoundHead + key + "' " + ObjectMissingPhrase + NotFoundTail + Join(available, ", ")
  }

  /**
   * `toGeoJSON`: throws when the topology has no object under `key`, naming every key it
   * does have; otherwise returns what the converter gives for that object.
   */
  function ToGeoJSON(t: Topology, key: string, convert: string -> seq<Feature>): (r: Outcome<seq<Feature>>)
    ensures r.Returns? <==> t.objects.Some? && key in t.objects.value
    ensures r.Returns? ==> r.value == convert(key)
    ensures r.Throws? ==> r.message == NotFoundMessage(key, t.objects.GetOr([]))
  {
    if t.objects.None? || key !in t.objects.value then
      Throws(NotFoundMessage(key, t.objects.GetOr([])))
    else
      Returns(convert(key))
  }

  // ---------------------------------------------------------------- ensureLatLngOrder

  predicate IsNumberPair(c: Json)
  {
    c.JArr? && |c.items| == 2 && c.items[0].JNum? && c.items[1].JNum?
  }

  /**
   * `ensureLatLngOrder`: a pair of numbers is swapped, any other array is walked
   * element by element, and anything else is returned as it is.
   */
  function EnsureLatLngOrder(c: Json): (r: Json)
    ensures r.JNum? <==> c.JNum?
    ensures r.JArr? <==> c.JArr?
    ensures r.JArr? ==> |r.items| == |c.items|
    ensures IsNumberPair(c) ==> r == JArr([c.items[1], c.items[0]])
    ensures !c.JArr? ==> r == c
  {
    match c
    case JArr(items) =>
      if IsNumberPair(c) then JArr([items[1], items[0]])
      else JArr(seq(|items|, k requires 0 <= k < |items| => EnsureLatLngOrder(items[k])))
    case _ => c
  }

  /** Applying the conversion twice gives the original coordinates back. */
  lemma {:induction false} EnsureLatLngOrderInvolution(c: Json)
    ensures EnsureLatLngOrder(EnsureLatLngOrder(c)) == c
  {
    match c
    case JArr(items) =>
      if !IsNumberPair(c) {
        var r := EnsureLatLngOrder(c);
        forall k | 0 <= k < |items|
          ensures EnsureLatLngOrder(r.items[k]) == items[k]
        {
          EnsureLatLngOrderInvolution(items[k]);
        }
        assert !IsNumberPair(r);
        assert EnsureLatLngOrder(r).items == items;
      }
    case _ =>
  }

  /** The nesting of arrays with every number replaced by zero. */
  function Shape(c: Json): Json
  {
    match c
    case JNum(_) => JNum(0.0)
    case JArr(items) => JArr(seq(|items|, k requires 0 <= k < |items| => Shape(items[k])))
    case _ => c
  }

  /** The conversion only moves numbers: the nesting of arrays is unchanged. */
  lemma {:induction false} EnsureLatLngOrderKeepsShape(c: Json)
    ensures Shape(EnsureLatLngOrder(c)) == Shape(c)
  {
    match c
    case JArr(items) =>
      if !IsNumberPair(c) {
        forall k | 0 <= k < |items|
          ensures Shape(EnsureLatLngOrder(items[k])) == Shape(items[k])
        {
          EnsureLatLngOrderKeepsShape(items[k]);
        }
        assert Shape(EnsureLatLngOrder(c)).items == Shape(c).items;
      } else {
        assert Shape(EnsureLatLngOrder(c)).items == Shape(c).items;
      }
    case _ =>
  }

  function PointJson(p: Point): Json
  {
    JArr([JNum(p.x), JNum(p.y)])
  }

  function LatLngJson(l: LatLng): Json
  {
    JArr([JNum(l.lat), JNum(l.lng)])
  }

  function RingJson(ring: Ring): Json
  {
    JArr(seq(|ring|, j requires 0 <= j < |ring| => PointJson(ring[j])))
  }

  function PathJson(path: seq<LatLng>): Json
  {
    JArr(seq(|path|, j requires 0 <= j < |path| => LatLngJson(path[j])))
  }

  // ---------------------------------------------------------------- getBbox

  /** The `{ sw, ne }` corners handed to the SDK's `fitBounds`. */
  datatype Corners = Corners(sw: LatLng, ne: LatLng)

  const InvalidBboxMessage := "유효하지 않은 bbox 형식입니다. [minX, minY, maxX, maxY] 형태여야 합니다."

  /** `getBbox`: exactly four numbers become the south-west and north-east corners; anything else throws. */
  function GetBbox(bbox: Option<seq<real>>): (r: Outcome<Corners>)
    ensures r.Returns? <==> bbox.Some? && |bbox.value| == 4
    ensures r.Throws? ==> r.message == InvalidBboxMessage
    ensures r.Returns? ==>
      r.value.sw == LatLng(bbox.value[1], bbox.value[0]) && r.value.ne == LatLng(bbox.value[3], bbox.value[2])
  {
    if bbox.None? || |bbox.value| != 4 then Throws(InvalidBboxMessage)
    else
      var b := bbox.value;
      Returns(Corners(LatLng(b[1], b[0]), LatLng(b[3], b[2])))
  }

  // ---------------------------------------------------------------- calculateBbox

  /** The box as the four-number array `[minX, minY, maxX, maxY]`. */
  function BoxArray(b: Box): seq<real>
  {
    [b.minX, b.minY, b.maxX, b.maxY]
  }

  /** What `calculateBbox` returns: `None` stands for the array of four `NaN`s. */
  function BboxOf(f: Feature): Option<seq<real>>
  {
    if f.properties.bbox.Some? then f.properties.bbox
    else
      match BoundsOf(f.geometry)
      case Finite(b) => Some(BoxArray(b))
      case NonFinite => None
  }

  /** The running `minX, minY, maxX, maxY` of the walk; `seen` is false while they are still infinite. */
  method ScanPoints(pts: seq<Point>, seen: bool, box: Box, ghost done: seq<Point>)
    returns (seen': bool, box': Box)
    requires seen == (|done| > 0)
    requires seen ==> box == Hull(done)
    ensures seen' == (|done + pts| > 0)
    ensures seen' ==> box' == Hull(done + pts)
  {
    seen', box' := seen, box;
    var k := 0;
    assert done + pts[..0] == done;
    while k < |pts|
      invariant 0 <= k <= |pts|
      invariant seen' == (|done + pts[..k]| > 0)
      invariant seen' ==> box' == Hull(done + pts[..k])
    {
      var p := pts[k];
      ghost var next := done + pts[..k + 1];
      assert next[..|next| - 1] == done + pts[..k];
      assert next[|next| - 1] == p;
      if !seen' {
        box' := Box(p.x, p.y, p.x, p.y);
      } else {
        box' := Grow(box', p);
      }
      seen' := true;
      k := k + 1;
    }
    assert pts[..k] == pts;
  }

  /** Walks a list of rings; an empty ring turns every bound into `NaN`. */
  method ScanRings(rings: seq<Ring>, seen: bool, box: Box, nan: bool, ghost done: seq<Point>)
    returns (seen': bool, box': Box, nan': bool)
    requires seen == (|done| > 0)
    requires seen ==> box == Hull(done)
    ensures seen' == (|done + RingsPoints(rings)| > 0)
    ensures seen' ==> box' == Hull(done + RingsPoints(rings))
    ensures nan' == (nan || HasEmptyRing(rings))
  {
    seen', box', nan' := seen, box, nan;
    var i := 0;
    assert done + RingsPoints(rings[..0]) == done;
    while i < |rings|
      invariant 0 <= i <= |rings|
      invariant seen' == (|done + RingsPoints(rings[..i])| > 0)
      invariant seen' ==> box' == Hull(done + RingsPoints(rings[..i]))
      invariant nan' == (nan || HasEmptyRing(rings[..i]))
    {
      assert rings[..i + 1][..i] == rings[..i];
      assert RingsPoints(rings[..i + 1]) == RingsPoints(rings[..i]) + rings[i];
      assert done + RingsPoints(rings[..i + 1]) == (done + RingsPoints(rings[..i])) + rings[i];
      assert HasEmptyRing(rings[..i + 1]) == (HasEmptyRing(rings[..i]) || rings[i] == []);
      if rings[i] == [] {
        assert done + RingsPoints(rings[..i + 1]) == done + RingsPoints(rings[..i]);
        nan' := true;
      } else {
        seen', box' := ScanPoints(rings[i], seen', box', done + RingsPoints(rings[..i]));
      }
      i := i + 1;
    }
    assert rings[..i] == rings;
  }

  /**
   * `calculateBbox`: `properties.bbox` when present; otherwise the bounds of every position
   * met by a depth-first walk over `geometry.coordinates`.
   */
  method CalculateBbox(f: Feature) returns (r: Option<seq<real>>)
    ensures r == BboxOf(f)
  {
    if f.properties.bbox.Some? {
      return f.properties.bbox;
    }
    var seen, nan := false, false;
    var box := Box(0.0, 0.0, 0.0, 0.0);
    match f.geometry {
      case Polygon(rings) =>
        if rings == [] {
          nan := true;
        } else {
          seen, box, nan := ScanRings(rings, seen, box, nan, []);
          assert [] + RingsPoints(rings) == Points(f.geometry);
        }
      case MultiPolygon(polys) =>
        if polys == [] {
          nan := true;
        } else {
          var i := 0;
          while i < |polys|
            invariant 0 <= i <= |polys|
            invariant seen == (|PolygonsPoints(polys[..i])| > 0)
            invariant seen ==> box == Hull(PolygonsPoints(polys[..i]))
            invariant nan == (exists k :: 0 <= k < i && (polys[k] == [] || HasEmptyRing(polys[k])))
          {
            assert polys[..i + 1][..i] == polys[..i];
            assert PolygonsPoints(polys[..i + 1]) == PolygonsPoints(polys[..i]) + RingsPoints(polys[i]);
            if polys[i] == [] {
              assert PolygonsPoints(polys[..i + 1]) == PolygonsPoints(polys[..i]);
              nan := true;
            } else {
              seen, box, nan := ScanRings(polys[i], seen, box, nan, PolygonsPoints(polys[..i]));
            }
            i := i + 1;
          }
          assert polys[..i] == polys;
        }
      case OtherGeometry(_, pts) =>
        if pts == [] {
          nan := true;
        } else {
          seen, box := ScanPoints(pts, seen, box, []);
          assert [] + pts == pts;
        }
    }
    BoundsFiniteIff(f.geometry);
    if nan || !seen {
      r := None;
    } else {
      r := Some(BoxArray(box));
    }
  }

  /** A computed box covers every position of the feature. */
  lemma CalculatedBboxCovers(f: Feature)
    requires f.properties.bbox.None? && BboxOf(f).Some?
    ensures var b := BboxOf(f).value;
      |b| == 4 && forall k :: 0 <= k < |Points(f.geometry)| ==> Inside(Box(b[0], b[1], b[2], b[3]), Points(f.geometry)[k])
  {
    BoundsCover(f.geometry);
  }

  // ---------------------------------------------------------------- getCenter

  /** The midpoint of a bbox array; `None` (`NaN`) when the array has fewer than four numbers. */
  function BboxMidpoint(b: seq<real>): Option<Point>
  {
    if |b| < 4 then None else Some(Point((b[0] + b[2]) / 2.0, (b[1] + b[3]) / 2.0))
  }

  /** `getCenter`: `properties.center` when present, else the midpoint of `calculateBbox`. */
  method GetCenter(f: Feature) returns (r: Option<Point>)
    ensures f.properties.center.Some? ==> r == f.properties.center
    ensures f.properties.center.None? ==>
      r == (match BboxOf(f) case Some(b) => BboxMidpoint(b) case None => None)
  {
    if f.properties.center.Some? {
      return f.properties.center;
    }
    var bbox := CalculateBbox(f);
    match bbox {
      case Some(b) => r := BboxMidpoint(b);
      case None => r := None;
    }
  }

  /** The centre computed from the geometry lies inside the geometry's bounds. */
  lemma ComputedCenterInside(f: Feature)
    requires f.properties.bbox.None? && BoundsOf(f.geometry).Finite?
    ensures var b := BoundsOf(f.geometry).box;
      BboxOf(f).Some? && BboxMidpoint(BboxOf(f).value).Some? && Inside(b, BboxMidpoint(BboxOf(f).value).value)
  {
    HullOrdered(Points(f.geometry));
  }

  // ---------------------------------------------------------------- polygon paths

  /** One ring in the SDK's `[lat, lng]` order. */
  function SwapRing(ring: Ring): (r: seq<LatLng>)
    ensures |r| == |ring|
    ensures forall j :: 0 <= j < |ring| ==> r[j].lat == ring[j].y && r[j].lng == ring[j].x
  {
    seq(|ring|, j requires 0 <= j < |ring| => LatLng(ring[j].y, ring[j].x))
  }

  function PolygonPaths(rings: seq<Ring>): (r: seq<seq<LatLng>>)
    ensures |r| == |rings|
    ensures forall i :: 0 <= i < |rings| ==> r[i] == SwapRing(rings[i])
  {
    seq(|rings|, i requires 0 <= i < |rings| => SwapRing(rings[i]))
  }

  /**
   * `toKakaoPolygonPaths`: a Polygon gives one path per ring, a MultiPolygon the paths of
   * all its polygons one after another, and any other geometry no path.
   */
  function ToKakaoPolygonPaths(f: Feature): (r: seq<seq<LatLng>>)
    ensures f.geometry.Polygon? ==> r == PolygonPaths(f.geometry.rings)
    ensures f.geometry.MultiPolygon? ==> r == MultiPolygonPaths(f.geometry.polygons)
    ensures f.geometry.OtherGeometry? ==> r == []
  {
    match f.geometry
    case Polygon(rings) => PolygonPaths(rings)
    case MultiPolygon(polys) => MultiPolygonPaths(polys)
    case OtherGeometry(_, _) => []
  }

  /** The paths of every polygon, one polygon after another (`flatMap`). */
  function MultiPolygonPaths(polys: seq<seq<Ring>>): seq<seq<LatLng>>
  {
    if polys == [] then [] else PolygonPaths(polys[0]) + MultiPolygonPaths(polys[1..])
  }

  /** `toNaverPolygonPaths` is the same conversion. */
  function ToNaverPolygonPaths(f: Feature): (r: seq<seq<LatLng>>)
    ensures r == ToKakaoPolygonPaths(f)
  {
    ToKakaoPolygonPaths(f)
  }

  /** Each converted ring is `ensureLatLngOrder` applied to the ring's coordinates. */
  lemma SwapRingIsEnsureLatLngOrder(ring: Ring)
    ensures PathJson(SwapRing(ring)) == EnsureLatLngOrder(RingJson(ring))
  {
    var c := RingJson(ring);
    assert !IsNumberPair(c);
    assert PathJson(SwapRing(ring)).items == EnsureLatLngOrder(c).items;
  }

  function UnswapPath(path: seq<LatLng>): Ring
  {
    seq(|path|, j requires 0 <= j < |path| => Point(path[j].lng, path[j].lat))
  }

  /** Reading the paths back in `[lng, lat]` order recovers the polygon's rings. */
  lemma PolygonPathsRoundTrip(rings: seq<Ring>)
    ensures var paths := PolygonPaths(rings);
      seq(|paths|, i requires 0 <= i < |paths| => UnswapPath(paths[i])) == rings
  {
    var paths := PolygonPaths(rings);
    forall i | 0 <= i < |rings|
      ensures UnswapPath(paths[i]) == rings[i]
    {
      assert UnswapPath(SwapRing(rings[i])) == rings[i];
    }
  }

  function RingCount(polys: seq<seq<Ring>>): nat
  {
    if polys == [] then 0 else |polys[0]| + RingCount(polys[1..])
  }

  /** A MultiPolygon yields one path per ring of every polygon. */
  lemma {:induction false} MultiPolygonPathCount(polys: seq<seq<Ring>>)
    ensures |MultiPolygonPaths(polys)| == RingCount(polys)
  {
    if polys != [] {
      MultiPolygonPathCount(polys[1..]);
    }
  }

  /** The paths of a MultiPolygon start with those of its first polygon, and so on. */
  lemma {:induction false} MultiPolygonPathsAppend(a: seq<seq<Ring>>, b: seq<seq<Ring>>)
    ensures MultiPolygonPaths(a + b) == MultiPolygonPaths(a) + MultiPolygonPaths(b)
  {
    if a == [] {
      assert a + b == b;
    } else {
      var ab := a + b;
      assert ab[0] == a[0] && ab[1..] == a[1..] + b;
      calc {
        MultiPolygonPaths(ab);
        PolygonPaths(a[0]) + MultiPolygonPaths(a[1..] + b);
        { MultiPolygonPathsAppend(a[1..], b); }
        PolygonPaths(a[0]) + (MultiPolygonPaths(a[1..]) + MultiPolygonPaths(b));
        (PolygonPaths(a[0]) + MultiPolygonPaths(a[1..])) + MultiPolygonPaths(b);
      }
    }
  }

  // ---------------------------------------------------------------- getCoordSamples

  const TypeErrorMessage := "TypeError: Cannot read properties of undefined (reading 'slice')"
  /** What JavaScript raises when indexing `coordinates[0]` of an empty multi-polygon. */
  const IndexErrorMessage := "TypeError: Cannot read properties of undefined (reading '0')"

  /**
   * `getCoordSamples`: the first positions of the outer ring (of the first polygon) per
   * JavaScript's `slice(0, n)`. A missing ring raises the TypeError of calling `slice`
   * on undefined; a multi-polygon without polygons fails one step earlier, on `[0]`.
   */
  function GetCoordSamples(f: Feature, sampleCount: int): (r: Outcome<seq<Point>>)
    ensures f.geometry.Polygon? ==>
      if f.geometry.rings == [] then r == Throws(TypeErrorMessage)
      else r == Returns(f.geometry.rings[0][..SliceEnd(sampleCount, |f.geometry.rings[0]|)])
    ensures f.geometry.MultiPolygon? ==>
      if f.geometry.polygons == [] then r == Throws(IndexErrorMessage)
      else if f.geometry.polygons[0] == [] then r == Throws(TypeErrorMessage)
      else r == Returns(f.geometry.polygons[0][0][..SliceEnd(sampleCount, |f.geometry.polygons[0][0]|)])
    ensures f.geometry.OtherGeometry? ==> r == Returns([])
    ensures r.Returns? && sampleCount >= 0 ==> |r.value| <= sampleCount
  {
    match f.geometry
    case Polygon(rings) =>
      if rings == [] then Throws(TypeErrorMessage)
      else Returns(rings[0][..SliceEnd(sampleCount, |rings[0]|)])
    case MultiPolygon(polys) =>
      if polys == [] then Throws(IndexErrorMessage)
      else if polys[0] == [] then Throws(TypeErrorMessage)
      else Returns(polys[0][0][..SliceEnd(sampleCount, |polys[0][0]|)])
    case OtherGeometry(_, _) => Returns([])
  }

  /** With the default count, at most three samples come back, and they start the outer ring. */
  lemma DefaultSamples(f: Feature)
    requires f.geometry.Polygon? && f.geometry.rings != []
    ensures var r := GetCoordSamples(f, 3);
      r.Returns? && |r.value| == (if |f.geometry.rings[0]| < 3 then |f.geometry.rings[0]| else 3)
      && IsPrefixOf(r.value, f.geometry.rings[0])
  {
  }

  predicate IsPrefixOf(a: seq<Point>, b: seq<Point>)
  {
    |a| <= |b| && b[..|a|] == a
  }

  // ---------------------------------------------------------------- getErrorMessage

  /** A thrown value: its `message` property and what `${error}` prints for it. */
  datatype ErrorValue = ErrorValue(message: Field, asText: string)

  /** `error.message?.includes(t)` */
  predicate MessageHas(e: ErrorValue, t: string)
  {
    e.message.Str? && Contains(e.message.s, t)
  }

  const AuthFailed := "🔑 API 키 인증 실패: 허용 도메인에 http://localhost:5173을 등록해주세요."
  const FileMissing := "📁 TopoJSON 파일을 찾을 수 없습니다. 경로를 확인해주세요."
  const BadFormat := "📄 TopoJSON 파일 형식이 올바르지 않습니다."
  const ObjectMissingPhrase := "객체를 찾을 수 없습니다"

  /** `getErrorMessage`: the first matching rule, in the order 401/403, 404, SyntaxError, missing object. */
  function GetErrorMessage(e: ErrorValue): (r: string)
    ensures MessageHas(e, "401") || MessageHas(e, "403") ==> r == AuthFailed
    ensures !MessageHas(e, "401") && !MessageHas(e, "403") && MessageHas(e, "404") ==> r == FileMissing
    ensures (!MessageHas(e, "401") && !MessageHas(e, "403") && !MessageHas(e, "404") && MessageHas(e, "SyntaxError"))
      ==> r == BadFormat
    ensures (!MessageHas(e, "401") && !MessageHas(e, "403") && !MessageHas(e, "404") && !MessageHas(e, "SyntaxError")
             && MessageHas(e, ObjectMissingPhrase))
      ==> r == "🔍 " + e.message.s
    ensures (!MessageHas(e, "401") && !MessageHas(e, "403") && !MessageHas(e, "404") && !MessageHas(e, "SyntaxError")
             && !MessageHas(e, ObjectMissingPhrase))
      ==> r == "❌ 오류: " + (if Truthy(e.message) then e.message.s else e.asText)
  {
    if MessageHas(e, "401") || MessageHas(e, "403") then AuthFailed
    else if MessageHas(e, "404") then FileMissing
    else if MessageHas(e, "SyntaxError") then BadFormat
    else if MessageHas(e, ObjectMissingPhrase) then "🔍 " + e.message.s
    else "❌ 오류: " + (if Truthy(e.message) then e.message.s else e.asText)
  }

  predicate IsLowerAsciiWord(s: string)
  {
    forall k :: 0 <= k < |s| ==> 'a' <= s[k] <= 'z'
  }

  lemma LowerWordLacks(s: string)
    requires IsLowerAsciiWord(s)
    ensures '4' !in s && 'E' !in s
  {
  }

  lemma {:induction false} JoinLacksChar(pieces: seq<string>, sep: string, c: char)
    requires forall k :: 0 <= k < |pieces| ==> c !in pieces[k]
    requires c !in sep
    ensures c !in Join(pieces, sep)
  {
    if |pieces| > 1 {
      JoinLacksChar(pieces[1..], sep, c);
    }
  }

  lemma FixedTextLacks()
    ensures '4' !in NotFoundHead && 'E' !in NotFoundHead
    ensures '4' !in NotFoundTail && 'E' !in NotFoundTail
    ensures '4' !in ObjectMissingPhrase && 'E' !in ObjectMissingPhrase
    ensures '4' !in "' " && 'E' !in "' " && '4' !in ", " && 'E' !in ", "
  {
  }

  lemma NotFoundMessageLacks(key: string, available: seq<string>, c: char)
    requires c == '4' || c == 'E'
    requires IsLowerAsciiWord(key)
    requires forall k :: 0 <= k < |available| ==> IsLowerAsciiWord(available[k])
    ensures c !in NotFoundMessage(key, available)
  {
    forall k | 0 <= k < |available|
      ensures c !in available[k]
    {
      LowerWordLacks(available[k]);
    }
    JoinLacksChar(available, ", ", c);
    LowerWordLacks(key);
    FixedTextLacks();
    assert c !in NotFoundHead + key;
    assert c !in NotFoundHead + key + "' ";
    assert c !in NotFoundHead + key + "' " + ObjectMissingPhrase;
    assert c !in NotFoundHead + key + "' " + ObjectMissingPhrase + NotFoundTail;
  }

  lemma NotFoundMessageNamesPhrase(key: string, available: seq<string>)
    ensures Contains(NotFoundMessage(key, available), ObjectMissingPhrase)
  {
    var head := NotFoundHead + key + "' ";
    var tail := NotFoundTail + Join(available, ", ");
    assert NotFoundMessage(key, available) == head + ObjectMissingPhrase + tail;
    assert IsPrefix(ObjectMissingPhrase, ObjectMissingPhrase);
    ContainsRight(head, ObjectMissingPhrase, ObjectMissingPhrase);
    ContainsLeft(head + ObjectMissingPhrase, tail, ObjectMissingPhrase);
  }

  /**
   * The error `toGeoJSON` throws for a missing object is shown with the magnifier prefix,
   * as long as the object names are plain lower-case words (such as `sig` and `emd`).
   */
  lemma MissingObjectMessageShown(key: string, available: seq<string>, asText: string)
    requires IsLowerAsciiWord(key)
    requires forall k :: 0 <= k < |available| ==> IsLowerAsciiWord(available[k])
    ensures var m := NotFoundMessage(key, available);
      GetErrorMessage(ErrorValue(Str(m), asText)) == "🔍 " + m
  {
    var m := NotFoundMessage(key, available);
    NotFoundMessageLacks(key, available, '4');
    NotFoundMessageLacks(key, available, 'E');
    NotFoundMessageNamesPhrase(key, available);
    LacksChar(m, "401", '4');
    LacksChar(m, "403", '4');
    LacksChar(m, "404", '4');
    LacksChar(m, "SyntaxError", 'E');
  }
}
