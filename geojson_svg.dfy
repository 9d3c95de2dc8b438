/**
 * `scripts/convert-geojson-to-svg.mjs`: fits the exterior rings of a GeoJSON feature
 * collection into an 800×600 view box and writes one SVG path per feature. The bounds are
 * gathered step by step over every position, then each feature's ring is projected and
 * appended to the SVG text.
 */
module GeoJsonSvg {
  import opened Wrappers
  import opened Js
  import opened Text
  import opened Geo

  /**
   * A feature as the converter reads it: its `id`, and `geometry.coordinates[0]` when
   * `geometry`, `coordinates` and that first entry are all present (an empty ring passes).
   */
  datatype InFeature = InFeature(id: Field, exterior: Option<Ring>)

  /** `regionNames[key]` */
  function RegionName(key: string): Option<string>
  {
    match key
    case "41111" => Some("수원시 장안구")
    case "41113" => Some("수원시 권선구")
    case "41115" => Some("수원시 팔달구")
    case "41117" => Some("수원시 영통구")
    case "41131" => Some("성남시 수정구")
    case "41133" => Some("성남시 중원구")
    case "41135" => Some("성남시 분당구")
    case "41150" => Some("의정부시")
    case "41170" => Some("안양시 만안구")
    case "41171" => Some("안양시 동안구")
    case "41190" => Some("부천시")
    case "41210" => Some("광명시")
    case "41220" => Some("평택시")
    case "41250" => Some("동두천시")
    case "41270" => Some("안산시 상록구")
    case "41271" => Some("안산시 단원구")
    case "41280" => Some("고양시 덕양구")
    case "41281" => Some("고양시 일산동구")
    case "41282" => Some("고양시 일산서구")
    case "41285" => Some("과천시")
    case "41287" => Some("구리시")
    case "41290" => Some("남양주시")
    case "41310" => Some("오산시")
    case "41360" => Some("시흥시")
    case "41370" => Some("군포시")
    case "41390" => Some("의왕시")
    case "41410" => Some("하남시")
    case "41430" => Some("용인시 기흥구")
    case "41450" => Some("용인시 수지구")
    case "41461" => Some("용인시 처인구")
    case "41480" => Some("파주시")
    case "41500" => Some("이천시")
    case "41550" => Some("안성시")
    case "41570" => Some("김포시")
    case "41590" => Some("화성시")
    case "41610" => Some("광주시")
    case "41630" => Some("여주시")
    case "41650" => Some("양평군")
    case "41670" => Some("고양시")
    case "41690" => Some("연천군")
    case "41730" => Some("포천시")
    case "41750" => Some("가평군")
    case "41790" => Some("양주시")
    case "41800" => Some("동두천시")
    case "41810" => Some("연천군")
    case "41820" => Some("포천시")
    case "41830" => Some("가평군")
    case _ => None
  }

  /** `regionNames[id] || `지역 ${id}``: every table entry is non-empty, so the fallback is for unknown ids. */
  function Name(id: Field): (r: string)
    ensures |r| > 0
    ensures RegionName(Show(id)).Some? ==> r == RegionName(Show(id)).value
    ensures RegionName(Show(id)).None? ==> r == "지역 " + Show(id)
  {
    match RegionName(Show(id))
    case Some(n) => n
    case None => "지역 " + Show(id)
  }

  /** The table gives one name to several codes, so a name does not identify a region. */
  lemma NamesRepeat()
    ensures RegionName("41250") == RegionName("41800") == Some("동두천시")
    ensures RegionName("41690") == RegionName("41810") == Some("연천군")
  {
  }

  /** No name in the table holds a `<`, so a name never opens a tag. */
  lemma TableNamesPlain(key: string)
    ensures RegionName(key).Some? ==> '<' !in RegionName(key).value
  {
  }

  /** A name is free of `<` whenever the id's text is. */
  lemma NamePlain(id: Field)
    requires '<' !in Show(id)
    ensures '<' !in Name(id)
  {
    TableNamesPlain(Show(id));
  }

  const Width := 800.0
  const Height := 600.0

  // ---------------------------------------------------------------- bounds

  /** The positions the bounds pass visits: every guarded feature's ring, in order. */
  function Exteriors(fs: seq<InFeature>): seq<Point>
  {
    if fs == [] then []
    else
      var last := fs[|fs| - 1];
      Exteriors(fs[..|fs| - 1]) + (if last.exterior.Some? then last.exterior.value else [])
  }

  /** The box the bounds pass ends with; `None` stands for the infinite start values left untouched. */
  function HullOf(pts: seq<Point>): Option<Box>
  {
    if pts == [] then None else Some(Hull(pts))
  }

  /** One `Math.min` / `Math.max` step; from the infinite start the box becomes the position. */
  function GrowFrom(b: Option<Box>, p: Point): Box
  {
    if b.None? then Box(p.x, p.y, p.x, p.y) else Grow(b.value, p)
  }

  lemma HullSnoc(pts: seq<Point>, p: Point)
    ensures HullOf(pts + [p]) == Some(GrowFrom(HullOf(pts), p))
  {
    assert (pts + [p])[..|pts|] == pts;
  }

  /** The nested `forEach` over the features and their rings. */
  method Bounds(features: seq<InFeature>) returns (b: Option<Box>)
    ensures b == HullOf(Exteriors(features))
  {
    b := None;
    var i := 0;
    while i < |features|
      invariant 0 <= i <= |features|
      invariant b == HullOf(Exteriors(features[..i]))
    {
      ghost var seen := Exteriors(features[..i]);
      ExteriorsStep(features, i);
      if features[i].exterior.Some? {
        var ring := features[i].exterior.value;
        assert seen + ring[..0] == seen;
        var j := 0;
        while j < |ring|
          invariant 0 <= j <= |ring|
          invariant b == HullOf(seen + ring[..j])
        {
          HullSnoc(seen + ring[..j], ring[j]);
          assert seen + ring[..j + 1] == seen + ring[..j] + [ring[j]];
          b := Some(GrowFrom(b, ring[j]));
          j := j + 1;
        }
        assert ring[..|ring|] == ring;
      } else {
        assert seen + [] == seen;
      }
      i := i + 1;
    }
    assert features[..|features|] == features;
  }

  /** One more feature adds its ring, if it has one, after the positions visited so far. */
  lemma ExteriorsStep(fs: seq<InFeature>, i: nat)
    requires i < |fs|
    ensures Exteriors(fs[..i + 1])
      == Exteriors(fs[..i]) + (if fs[i].exterior.Some? then fs[i].exterior.value else [])
  {
    assert fs[..i + 1][..i] == fs[..i];
  }

  /** A feature that fails the guard adds no position: the bounds cover exactly the drawn features. */
  lemma SkippedAddNothing(fs: seq<InFeature>, f: InFeature)
    requires f.exterior.None?
    ensures Exteriors(fs + [f]) == Exteriors(fs)
  {
    assert (fs + [f])[..|fs|] == fs;
  }

  /** Every position of a drawn ring lies within the bounds. */
  lemma {:induction false} BoundsCover(fs: seq<InFeature>, k: nat, m: nat)
    requires k < |fs| && fs[k].exterior.Some? && m < |fs[k].exterior.value|
    ensures HullOf(Exteriors(fs)).Some? && Inside(HullOf(Exteriors(fs)).value, fs[k].exterior.value[m])
  {
    var p := fs[k].exterior.value[m];
    ExteriorsHold(fs, k, m);
    var i :| 0 <= i < |Exteriors(fs)| && Exteriors(fs)[i] == p;
    HullCovers(Exteriors(fs));
  }

  lemma {:induction false} ExteriorsHold(fs: seq<InFeature>, k: nat, m: nat)
    requires k < |fs| && fs[k].exterior.Some? && m < |fs[k].exterior.value|
    ensures exists i :: 0 <= i < |Exteriors(fs)| && Exteriors(fs)[i] == fs[k].exterior.value[m]
    decreases |fs|
  {
    var init := fs[..|fs| - 1];
    var ring := fs[k].exterior.value;
    if k == |fs| - 1 {
      assert Exteriors(fs)[|Exteriors(init)| + m] == ring[m];
    } else {
      assert init[k] == fs[k];
      ExteriorsHold(init, k, m);
      var i :| 0 <= i < |Exteriors(init)| && Exteriors(init)[i] == ring[m];
      assert Exteriors(fs)[i] == ring[m];
    }
  }

  // ---------------------------------------------------------------- fitting

  /** The scale and the centring offsets fitted to the bounds. */
  datatype Frame = Frame(minX: real, minY: real, scale: real, offsetX: real, offsetY: real)

  /**
   * `Math.min((width - 40) / rangeX, (height - 40) / rangeY)`: a zero range divides to
   * infinity and drops out of the minimum; when both are zero every coordinate is `NaN`,
   * written here as `None`.
   */
  function Fit(b: Box): (r: Option<Frame>)
    ensures r.None? <==> b.maxX - b.minX == 0.0 && b.maxY - b.minY == 0.0
  {
    var rangeX := b.maxX - b.minX;
    var rangeY := b.maxY - b.minY;
    if rangeX == 0.0 && rangeY == 0.0 then None
    else
      var scale :=
        if rangeX == 0.0 then (Height - 40.0) / rangeY
        else if rangeY == 0.0 then (Width - 40.0) / rangeX
        else Min((Width - 40.0) / rangeX, (Height - 40.0) / rangeY);
      Some(Frame(b.minX, b.minY, scale, (Width - rangeX * scale) / 2.0, (Height - rangeY * scale) / 2.0))
  }

  function FrameOf(fs: seq<InFeature>): Option<Frame>
  {
    var b := HullOf(Exteriors(fs));
    if b.None? then None else Fit(b.value)
  }

  /**
   * `(coord[0] - minX) * scale + offsetX`, and the same for `y`, with no flip: the corner
   * of the bounds lands on the offsets, and with a positive scale a position lies right of
   * (below) the offset exactly when it lies right of (below) the bounds' corner.
   */
  function Project(f: Frame, p: Point): (r: Point)
    ensures p == Point(f.minX, f.minY) ==> r == Point(f.offsetX, f.offsetY)
    ensures f.scale > 0.0 ==> (r.x >= f.offsetX <==> p.x >= f.minX) && (r.y >= f.offsetY <==> p.y >= f.minY)
  {
    Point((p.x - f.minX) * f.scale + f.offsetX, (p.y - f.minY) * f.scale + f.offsetY)
  }

  /** A position from the bounds lands in the view box less a 20-unit margin on every side. */
  lemma ProjectionInView(b: Box, p: Point)
    requires b.minX <= b.maxX && b.minY <= b.maxY && Inside(b, p) && Fit(b).Some?
    ensures var q := Project(Fit(b).value, p);
      20.0 <= q.x <= Width - 20.0 && 20.0 <= q.y <= Height - 20.0
  {
    var f := Fit(b).value;
    var rangeX, rangeY := b.maxX - b.minX, b.maxY - b.minY;
    var s := f.scale;
    ScalePositive(b);
    if rangeX > 0.0 {
      BelowQuotient(rangeX, s, Width - 40.0);
    }
    if rangeY > 0.0 {
      BelowQuotient(rangeY, s, Height - 40.0);
    }
    FitShape(b);
    FrameInView(f, p, rangeX, rangeY);
  }

  /** The frame keeps the box's corner and centres the scaled ranges. */
  lemma FitShape(b: Box)
    requires Fit(b).Some?
    ensures var f := Fit(b).value;
      f.minX == b.minX && f.minY == b.minY
      && f.offsetX == (Width - (b.maxX - b.minX) * f.scale) / 2.0
      && f.offsetY == (Height - (b.maxY - b.minY) * f.scale) / 2.0
  {
  }

  /** A frame whose scaled ranges fit the margins projects positions within the ranges inside them. */
  lemma FrameInView(f: Frame, p: Point, rx: real, ry: real)
    requires f.scale > 0.0
    requires 0.0 <= p.x - f.minX <= rx && 0.0 <= p.y - f.minY <= ry
    requires rx * f.scale <= Width - 40.0 && ry * f.scale <= Height - 40.0
    requires f.offsetX == (Width - rx * f.scale) / 2.0 && f.offsetY == (Height - ry * f.scale) / 2.0
    ensures 20.0 <= Project(f, p).x <= Width - 20.0 && 20.0 <= Project(f, p).y <= Height - 20.0
  {
    Scaled(p.x - f.minX, rx, f.scale);
    AxisInView((p.x - f.minX) * f.scale, rx * f.scale, f.offsetX, Width);
    Scaled(p.y - f.minY, ry, f.scale);
    AxisInView((p.y - f.minY) * f.scale, ry * f.scale, f.offsetY, Height);
    assert Project(f, p).x == (p.x - f.minX) * f.scale + f.offsetX;
    assert Project(f, p).y == (p.y - f.minY) * f.scale + f.offsetY;
  }

  /** One axis: a scaled offset within the scaled range, centred, stays 20 units inside the side. */
  lemma AxisInView(scaled: real, range: real, o: real, w: real)
    requires 0.0 <= scaled <= range <= w - 40.0 && o == (w - range) / 2.0
    ensures 20.0 <= scaled + o <= w - 20.0
  {
  }

  /** One axis: `(u - m) * s + o` is strictly increasing in `u` for a positive scale. */
  lemma AxisMonotone(u: real, v: real, m: real, s: real, o: real)
    requires s > 0.0
    ensures u < v ==> (u - m) * s + o < (v - m) * s + o
    ensures u == v ==> (u - m) * s + o == (v - m) * s + o
  {
    if u < v {
      assert (v - m) * s - (u - m) * s == (v - u) * s;
    }
  }

  lemma BelowQuotient(r: real, s: real, c: real)
    requires r > 0.0 && s <= c / r
    ensures r * s <= c
  {
    assert r * s <= r * (c / r);
  }

  lemma Scaled(a: real, r: real, s: real)
    requires 0.0 <= a <= r && s > 0.0
    ensures 0.0 <= a * s <= r * s
  {
  }

  lemma ScalePositive(b: Box)
    requires b.minX <= b.maxX && b.minY <= b.maxY && Fit(b).Some?
    ensures Fit(b).value.scale > 0.0
  {
    var rangeX, rangeY := b.maxX - b.minX, b.maxY - b.minY;
    if rangeX > 0.0 {
      assert (Width - 40.0) / rangeX > 0.0;
    }
    if rangeY > 0.0 {
      assert (Height - 40.0) / rangeY > 0.0;
    }
  }

  /** The projection keeps the order of positions on each axis, strictly. */
  lemma ProjectionMonotone(b: Box, p: Point, q: Point)
    requires b.minX <= b.maxX && b.minY <= b.maxY && Fit(b).Some?
    ensures var f := Fit(b).value;
      (p.x < q.x ==> Project(f, p).x < Project(f, q).x) && (p.x == q.x ==> Project(f, p).x == Project(f, q).x)
      && (p.y < q.y ==> Project(f, p).y < Project(f, q).y) && (p.y == q.y ==> Project(f, p).y == Project(f, q).y)
  {
    ScalePositive(b);
    FrameMonotone(Fit(b).value, p, q);
  }

  lemma FrameMonotone(f: Frame, p: Point, q: Point)
    requires f.scale > 0.0
    ensures (p.x < q.x ==> Project(f, p).x < Project(f, q).x) && (p.x == q.x ==> Project(f, p).x == Project(f, q).x)
    ensures (p.y < q.y ==> Project(f, p).y < Project(f, q).y) && (p.y == q.y ==> Project(f, p).y == Project(f, q).y)
  {
    FrameMonotoneX(f, p, q);
    FrameMonotoneY(f, p, q);
  }

  lemma FrameMonotoneX(f: Frame, p: Point, q: Point)
    requires f.scale > 0.0
    ensures (p.x < q.x ==> Project(f, p).x < Project(f, q).x) && (p.x == q.x ==> Project(f, p).x == Project(f, q).x)
  {
    assert Project(f, p).x == (p.x - f.minX) * f.scale + f.offsetX;
    assert Project(f, q).x == (q.x - f.minX) * f.scale + f.offsetX;
    AxisMonotone(p.x, q.x, f.minX, f.scale, f.offsetX);
  }

  lemma FrameMonotoneY(f: Frame, p: Point, q: Point)
    requires f.scale > 0.0
    ensures (p.y < q.y ==> Project(f, p).y < Project(f, q).y) && (p.y == q.y ==> Project(f, p).y == Project(f, q).y)
  {
    assert Project(f, p).y == (p.y - f.minY) * f.scale + f.offsetY;
    assert Project(f, q).y == (q.y - f.minY) * f.scale + f.offsetY;
    AxisMonotone(p.y, q.y, f.minY, f.scale, f.offsetY);
  }

  /** Every position of every drawn ring is projected inside the 20-unit margin of the canvas. */
  lemma DrawnInView(fs: seq<InFeature>, k: nat, m: nat)
    requires k < |fs| && fs[k].exterior.Some? && m < |fs[k].exterior.value|
    requires FrameOf(fs).Some?
    ensures var q := Project(FrameOf(fs).value, fs[k].exterior.value[m]);
      20.0 <= q.x <= Width - 20.0 && 20.0 <= q.y <= Height - 20.0
  {
    BoundsCover(fs, k, m);
    HullOrdered(Exteriors(fs));
    ProjectionInView(HullOf(Exteriors(fs)).value, fs[k].exterior.value[m]);
  }

  // ---------------------------------------------------------------- paths

  /** `${x},${y}` for one projected position; `num` writes a number as template interpolation does. */
  function PointText(frame: Option<Frame>, p: Point, num: real -> string): string
  {
    if frame.None? then "NaN,NaN"
    else
      var q := Project(frame.value, p);
      num(q.x) + "," + num(q.y)
  }

  function PointTexts(frame: Option<Frame>, ring: Ring, num: real -> string): (r: seq<string>)
    ensures |r| == |ring| && forall k :: 0 <= k < |ring| ==> r[k] == PointText(frame, ring[k], num)
  {
    seq(|ring|, k requires 0 <= k < |ring| => PointText(frame, ring[k], num))
  }

  /** The `d` attribute: `M`, the positions separated by spaces, and `Z`. */
  function PathData(frame: Option<Frame>, ring: Ring, num: real -> string): string
  {
    "M " + Join(PointTexts(frame, ring, num), " ") + " Z"
  }

  /** One path element on its own line: the tag name, then its id, outline and name attributes. */
  function PathElement(f: InFeature, frame: Option<Frame>, num: real -> string): string
    requires f.exterior.Some?
  {
    "\n<path" + PathAttributes(f, frame, num)
  }

  function PathAttributes(f: InFeature, frame: Option<Frame>, num: real -> string): string
    requires f.exterior.Some?
  {
    " id=\"" + Show(f.id) + "\" d=\"" + PathData(frame, f.exterior.value, num)
    + "\" data-name=\"" + Name(f.id) + "\" />"
  }

  /**
   * The `d` attribute splits on spaces into `M`, the position texts and `Z` (with one empty
   * piece for an empty ring), provided numbers are written without spaces.
   */
  lemma PathDataSplits(frame: Option<Frame>, ring: Ring, num: real -> string)
    requires forall r :: ' ' !in num(r)
    ensures SplitOn(PathData(frame, ring, num), " ")
      == ["M"] + (if ring == [] then [""] else PointTexts(frame, ring, num)) + ["Z"]
  {
    var pts := PointTexts(frame, ring, num);
    var mid := if ring == [] then [""] else pts;
    assert Join(pts, " ") == Join(mid, " ");
    forall k | 0 <= k < |mid|
      ensures ' ' !in mid[k]
    {
      if ring != [] {
        PointTextPlain(frame, ring[k], num, ' ');
      }
    }
    var all := ["M"] + mid + ["Z"];
    WrapJoin("M", mid, "Z", " ");
    assert "M " == "M" + " " && " Z" == " " + "Z";
    assert PathData(frame, ring, num) == Join(all, [' ']);
    forall k | 0 <= k < |all|
      ensures ' ' !in all[k]
    {
      if 0 < k < |all| - 1 {
        assert all[k] == mid[k - 1];
      }
    }
    SplitJoin(all, ' ');
  }

  lemma WrapJoin(x: string, mid: seq<string>, y: string, sep: string)
    requires |mid| >= 1
    ensures Join([x] + mid + [y], sep) == x + sep + Join(mid, sep) + sep + y
  {
    JoinConcat([x], mid, sep);
    JoinConcat([x] + mid, [y], sep);
  }

  /** A position's text holds a character only if a number text does (or it is a comma or part of `NaN`). */
  lemma PointTextPlain(frame: Option<Frame>, p: Point, num: real -> string, c: char)
    requires forall r :: c !in num(r)
    requires c != ',' && c != 'N' && c != 'a'
    ensures c !in PointText(frame, p, num)
  {
    if frame.Some? {
      var q := Project(frame.value, p);
      assert PointText(frame, p, num) == num(q.x) + "," + num(q.y);
    } else {
      var t := "NaN,NaN";
      assert forall m :: 0 <= m < |t| ==> t[m] == 'N' || t[m] == 'a' || t[m] == ',';
    }
  }

  /** A position's text splits on the comma into its two projected coordinates. */
  lemma PointTextSplits(frame: Option<Frame>, p: Point, num: real -> string)
    requires frame.Some? && forall r :: ',' !in num(r)
    ensures var q := Project(frame.value, p);
      SplitOn(PointText(frame, p, num), ",") == [num(q.x), num(q.y)]
  {
    var q := Project(frame.value, p);
    SplitPrefixPiece(num(q.x), ',', num(q.y));
    SplitNoSep(num(q.y), ',');
  }

  /** `String(x)` meets what the lemmas ask of the number writer. */
  lemma NumStrFits()
    ensures forall x :: ' ' !in NumStr(x) && ',' !in NumStr(x) && '<' !in NumStr(x)
  {
    forall x
      ensures ' ' !in NumStr(x) && ',' !in NumStr(x) && '<' !in NumStr(x)
    {
      NumStrHasNoComma(x);
      var t := NumStr(x);
      assert forall k :: 0 <= k < |t| ==> IsNumChar(t[k]);
    }
  }

  /** The paths of the guarded features, in feature order. */
  function Paths(fs: seq<InFeature>, frame: Option<Frame>, num: real -> string): string
  {
    if fs == [] then ""
    else
      var last := fs[|fs| - 1];
      Paths(fs[..|fs| - 1], frame, num) + (if last.exterior.Some? then PathElement(last, frame, num) else "")
  }

  /** The number of features that pass the guard. */
  function Drawn(fs: seq<InFeature>): nat
  {
    if fs == [] then 0 else Drawn(fs[..|fs| - 1]) + (if fs[|fs| - 1].exterior.Some? then 1 else 0)
  }

  /**
   * The header's three tags, each after its `<`, in pieces short enough to scan. The view
   * box interpolates `width` and `height`, written by the number formatter `num`.
   */
  const XmlBody := "?xml version=\"1.0\"?>"
  const SvgNamespace := "svg xmlns=\"http://www.w3.org/2000/svg\" "
  const SvgVersion := "version=\"1.2\" baseProfile=\"tiny\" "
  const SvgSize := "width=\"100%\" height=\"900\" "
  const SvgCap := "stroke-linecap=\"round\" "
  const SvgJoin := "stroke-linejoin=\"round\">"
  const GroupBody := "g id=\"gyeonggi-regions\">"
  const XmlTag := "<" + XmlBody
  const GroupTag := "\n<" + GroupBody

  function SvgViewBox(num: real -> string): string
  {
    "viewBox=\"0 0 " + num(Width) + " " + num(Height) + "\" "
  }

  function SvgBody(num: real -> string): string
  {
    SvgNamespace + SvgVersion + SvgSize + SvgViewBox(num) + SvgCap + SvgJoin
  }

  function SvgTag(num: real -> string): string
  {
    "\n<" + SvgBody(num)
  }

  function Header(num: real -> string): string
  {
    XmlTag + SvgTag(num) + GroupTag
  }
  const Footer := "\n</g>\n</svg>"

  lemma AppendAssoc(a: string, b: string, c: string)
    ensures a + b + c == a + (b + c)
  {
  }

  /** `(svgContent.match(/<path/g) || []).length`: the matches, scanned left to right without overlap. */
  function PathCount(s: string): nat
    decreases |s|
  {
    if |s| < 5 then 0
    else if s[..5] == "<path" then 1 + PathCount(s[5..])
    else PathCount(s[1..])
  }

  /** A text ending in `>` cannot end inside a `<path` match, so counts add across it. */
  lemma {:induction false} PathCountAppend(a: string, b: string)
    requires a == [] || a[|a| - 1] == '>'
    ensures PathCount(a + b) == PathCount(a) + PathCount(b)
    decreases |a|
  {
    var s := a + b;
    if a == [] {
      assert s == b;
    } else if |s| < 5 {
      assert PathCount(s) == 0 && PathCount(a) == 0 && PathCount(b) == 0;
    } else {
      var hit := s[..5] == "<path";
      var cut := if hit then 5 else 1;
      if |a| < 5 {
        assert s[..5][|a| - 1] == '>';
        assert !hit;
        assert PathCount(a) == 0;
      } else {
        assert s[..5] == a[..5];
      }
      if |a| >= cut {
        assert s[cut..] == a[cut..] + b;
        assert a[cut..] == [] || a[cut..][|a[cut..]| - 1] == '>';
        PathCountAppend(a[cut..], b);
      }
    }
  }

  lemma {:induction false} PathCountNoAngle(s: string)
    requires '<' !in s
    ensures PathCount(s) == 0
    decreases |s|
  {
    if |s| >= 5 {
      assert s[..5][0] == s[0];
      PathCountNoAngle(s[1..]);
    }
  }

  /** A `<path` tag followed by text without `<` holds one match. */
  lemma LeadCount(x: string)
    requires '<' !in x
    ensures PathCount("\n<path" + x) == 1
  {
    var e := "\n<path" + x;
    assert e[..5] != "<path" by { assert e[..5][0] == '\n'; }
    assert e[1..] == "<path" + x;
    assert e[1..][..5] == "<path";
    assert e[1..][5..] == x;
    PathCountNoAngle(x);
  }

  /** One path element holds one match when neither its id nor its numbers hold a `<`. */
  lemma PathElementCount(f: InFeature, frame: Option<Frame>, num: real -> string)
    requires f.exterior.Some? && '<' !in Show(f.id) && forall r :: '<' !in num(r)
    ensures PathCount(PathElement(f, frame, num)) == 1
    ensures PathElement(f, frame, num)[|PathElement(f, frame, num)| - 1] == '>'
  {
    var pts := PointTexts(frame, f.exterior.value, num);
    forall k | 0 <= k < |pts|
      ensures '<' !in pts[k]
    {
      PointTextPlain(frame, f.exterior.value[k], num, '<');
    }
    JoinLacks(pts, " ", '<');
    NamePlain(f.id);
    LeadCount(PathAttributes(f, frame, num));
  }

  /** Every guarded feature adds exactly one match, so the count is the number of paths drawn. */
  lemma {:induction false} PathsCount(fs: seq<InFeature>, frame: Option<Frame>, num: real -> string)
    requires forall k :: 0 <= k < |fs| ==> '<' !in Show(fs[k].id)
    requires forall r :: '<' !in num(r)
    ensures PathCount(Paths(fs, frame, num)) == Drawn(fs)
    ensures Paths(fs, frame, num) == [] || Paths(fs, frame, num)[|Paths(fs, frame, num)| - 1] == '>'
    decreases |fs|
  {
    if fs != [] {
      var init := fs[..|fs| - 1];
      var last := fs[|fs| - 1];
      assert forall k :: 0 <= k < |init| ==> init[k] == fs[k];
      PathsCount(init, frame, num);
      if last.exterior.Some? {
        PathElementCount(last, frame, num);
        PathCountAppend(Paths(init, frame, num), PathElement(last, frame, num));
      } else {
        assert Paths(fs, frame, num) == Paths(init, frame, num);
      }
    }
  }

  lemma FooterCount()
    ensures PathCount(Footer) == 0
  {
    var a := "\n</g>";
    var b := "\n</svg>";
    SkipCount(a, 0);
    assert |a[1..]| < 5;
    SkipCount(b, 0);
    assert b[1..] == "</svg>";
    SkipCount(b[1..], 1);
    assert b[1..][1..] == "/svg>";
    PathCountNoAngle("/svg>");
    PathCountAppend(a, b);
    assert Footer == a + b;
  }

  /** Where the character at `i` rules out `<path`, the count moves on by one character. */
  lemma SkipCount(s: string, i: nat)
    requires i < 5 <= |s| && s[i] != "<path"[i]
    ensures PathCount(s) == PathCount(s[1..])
  {
    assert s[..5][i] == s[i];
  }

  /**
   * The logged count is one per path drawn: the header and the footer add none, as long as
   * no id text or number text holds a `<`.
   */
  lemma OutputCount(fs: seq<InFeature>, num: real -> string)
    requires forall k :: 0 <= k < |fs| ==> '<' !in Show(fs[k].id)
    requires forall r :: '<' !in num(r)
    ensures PathCount(Header(num) + Paths(fs, FrameOf(fs), num) + Footer) == Drawn(fs)
  {
    HeaderCount(num);
    FooterCount();
    HeaderEnds(num);
    FramedCount(Header(num), Footer, fs, num);
  }

  /** The paths between a header and a footer without matches keep their own count. */
  lemma FramedCount(h: string, f: string, fs: seq<InFeature>, num: real -> string)
    requires PathCount(h) == 0 && PathCount(f) == 0 && h != [] && h[|h| - 1] == '>'
    requires forall k :: 0 <= k < |fs| ==> '<' !in Show(fs[k].id)
    requires forall r :: '<' !in num(r)
    ensures PathCount(h + Paths(fs, FrameOf(fs), num) + f) == Drawn(fs)
  {
    PathsCount(fs, FrameOf(fs), num);
    CountAround(h, Paths(fs, FrameOf(fs), num), f);
  }

  /** A tag opened by `<` and a character other than `p`, with no further `<`, holds no match. */
  lemma OtherTagCount(x: string)
    requires x != [] && x[0] != 'p' && '<' !in x
    ensures PathCount("<" + x) == 0
  {
    var t := "<" + x;
    if |t| >= 5 {
      SkipCount(t, 1);
    }
    assert t[1..] == x;
    PathCountNoAngle(x);
  }

  /** The same tag after a line break. */
  lemma BrokenTagCount(x: string)
    requires x != [] && x[0] != 'p' && '<' !in x
    ensures PathCount("\n<" + x) == 0
  {
    var t := "\n<" + x;
    if |t| >= 5 {
      SkipCount(t, 0);
    }
    assert t[1..] == "<" + x;
    OtherTagCount(x);
  }

  lemma SvgTagCount(num: real -> string)
    requires forall r :: '<' !in num(r)
    ensures PathCount(SvgTag(num)) == 0
  {
    SvgFrontPlain();
    SvgMiddlePlain(num);
    SvgBackPlain();
    assert SvgBody(num)[0] == SvgNamespace[0];
    BrokenTagCount(SvgBody(num));
  }

  lemma SvgFrontPlain()
    ensures '<' !in SvgNamespace && '<' !in SvgVersion
  {
  }

  lemma SvgMiddlePlain(num: real -> string)
    requires forall r :: '<' !in num(r)
    ensures '<' !in SvgSize && '<' !in SvgViewBox(num)
  {
    assert '<' !in num(Width) && '<' !in num(Height);
  }

  lemma SvgBackPlain()
    ensures '<' !in SvgCap && '<' !in SvgJoin
  {
  }

  /** The header's first two tags, and the header itself, end in `>`. */
  lemma HeaderEnds(num: real -> string)
    ensures XmlTag[|XmlTag| - 1] == '>' && SvgTag(num)[|SvgTag(num)| - 1] == '>'
    ensures Header(num) != [] && Header(num)[|Header(num)| - 1] == '>'
  {
  }

  /**
   * The header's three tags are `<?xml`, `<svg` and `<g`, so it holds no `<path` as long
   * as the width and height texts hold no `<`.
   */
  lemma HeaderCount(num: real -> string)
    requires forall r :: '<' !in num(r)
    ensures PathCount(Header(num)) == 0
  {
    OtherTagCount(XmlBody);
    SvgTagCount(num);
    BrokenTagCount(GroupBody);
    HeaderEnds(num);
    CountAround(XmlTag, SvgTag(num), GroupTag);
  }

  /** Counts add across two texts that each end in `>`. */
  lemma CountAround(a: string, b: string, c: string)
    requires a != [] && a[|a| - 1] == '>'
    requires b == [] || b[|b| - 1] == '>'
    ensures PathCount(a + b + c) == PathCount(a) + PathCount(b) + PathCount(c)
  {
    PathCountAppend(a, b);
    if b != [] {
      assert (a + b)[|a + b| - 1] == '>';
    }
    PathCountAppend(a + b, c);
  }

  /**
   * `convertGeoJSONToSVG` past the file read and `JSON.parse`: the bounds pass, the fit, then
   * one path per guarded feature between the header and the footer; `pathCount` is the
   * count the script logs.
   */
  method ConvertGeoJsonToSvg(features: seq<InFeature>, num: real -> string) returns (svgContent: string, pathCount: nat)
    ensures svgContent == Header(num) + Paths(features, FrameOf(features), num) + Footer
    ensures pathCount == PathCount(svgContent)
  {
    var b := Bounds(features);
    var frame := if b.None? then None else Fit(b.value);
    svgContent := Header(num);
    var i := 0;
    while i < |features|
      invariant 0 <= i <= |features|
      invariant svgContent == Header(num) + Paths(features[..i], frame, num)
    {
      assert features[..i + 1][..i] == features[..i];
      if features[i].exterior.Some? {
        AppendAssoc(Header(num), Paths(features[..i], frame, num), PathElement(features[i], frame, num));
        svgContent := svgContent + PathElement(features[i], frame, num);
      }
      i := i + 1;
    }
    assert features[..|features|] == features;
    svgContent := svgContent + Footer;
    pathCount := PathCount(svgContent);
  }
}
