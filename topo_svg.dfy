/**
 * `scripts/convert-topo-to-svg.mjs`: `topoToSVG` writes, for every 시·군 geometry of the
 * `sig` object of a TopoJSON topology, one outlined path and one labelled group holding the
 * same outline, into a single SVG document whose view box is the topology's `bbox`.
 *
 * Numbers reach the text through `num`, standing for JavaScript's number-to-string.
 */
module TopoSvg {
  import opened Wrappers
  import opened Js
  import opened Text
  import opened Geo

  // ---------------------------------------------------------------- the topology

  /**
   * What `geometry.arcs[0]` can be: the list may be absent (reading it throws) or empty
   * (the read gives `undefined`), or start with an arc index, with a ring of arc indices
   * (a polygon) or with a polygon, a list of rings (a multi-polygon). Used as a property key,
   * an array stringifies to its elements joined by commas.
   */
  datatype FirstArc = NoArcList | NoFirst | Index(i: int) | RingRef(refs: seq<int>) | PolygonRef(rings: seq<seq<int>>)

  datatype TopoProperties = TopoProperties(name: Field, center: Option<Point>)

  datatype TopoGeometry = TopoGeometry(id: Field, properties: Option<TopoProperties>, first: FirstArc)

  /** The parts the conversion reads: `objects.sig.geometries`, `arcs` and `bbox`. */
  datatype Topology = Topology(
    geometries: Option<seq<TopoGeometry>>,
    arcs: seq<seq<Point>>,
    bbox: Option<seq<real>>)

  /** The default canvas of `topoToSVG(topoData)`. */
  const DefaultWidth := 385.0
  const DefaultHeight := 435.0

  /** `arcs[i]`: the arc at a valid index; `undefined` for any other number. */
  function LookUp(arcs: seq<seq<Point>>, i: int): (r: Option<seq<Point>>)
    ensures r.Some? <==> 0 <= i < |arcs|
    ensures r.Some? ==> r.value == arcs[i]
  {
    if 0 <= i < |arcs| then Some(arcs[i]) else None
  }

  /**
   * `arcs[geometry.arcs[0]]`. A ring used as a key is turned into the text of its indices
   * joined by commas, which names an arc only when the ring has exactly one index; a
   * multi-polygon's first polygon does so only when it is a single one-index ring.
   */
  function ArcOf(arcs: seq<seq<Point>>, first: FirstArc): (r: Option<seq<Point>>)
    ensures r.Some? ==> r.value in arcs
  {
    match first
    case Index(i) => LookUp(arcs, i)
    case RingRef(refs) => if |refs| == 1 then LookUp(arcs, refs[0]) else None
    case PolygonRef(rings) => if |rings| == 1 && |rings[0]| == 1 then LookUp(arcs, rings[0][0]) else None
    case _ => None
  }

  /** `arc && arc.length > 0`: the arc a geometry is drawn from, if any. */
  function DrawnArc(arcs: seq<seq<Point>>, g: TopoGeometry): (r: Option<seq<Point>>)
    ensures r.Some? ==> |r.value| > 0 && r.value in arcs
    ensures r.Some? <==> ArcOf(arcs, g.first).Some? && |ArcOf(arcs, g.first).value| > 0
  {
    var arc := ArcOf(arcs, g.first);
    if arc.Some? && |arc.value| > 0 then arc else None
  }

  /**
   * The geometry makes the conversion throw: its `properties` cannot be destructured, its
   * `arcs` list is absent, or it is drawn without a `center` for its label.
   */
  predicate Throws(arcs: seq<seq<Point>>, g: TopoGeometry)
  {
    g.properties.None? || g.first.NoArcList? || (DrawnArc(arcs, g).Some? && g.properties.value.center.None?)
  }

  /** Arcs can only be of a ring of one index: a longer or an empty ring is skipped. */
  lemma RingKeys(arcs: seq<seq<Point>>, refs: seq<int>)
    ensures |refs| != 1 ==> ArcOf(arcs, RingRef(refs)).None?
    ensures |refs| == 1 ==> ArcOf(arcs, RingRef(refs)) == ArcOf(arcs, Index(refs[0]))
  {
  }

  /**
   * A multi-polygon's first polygon stringifies to a single index only when it is one ring of
   * one index; any other shape leaves a comma (or nothing) in the key and is skipped.
   */
  lemma PolygonKeys(arcs: seq<seq<Point>>, rings: seq<seq<int>>)
    ensures !(|rings| == 1 && |rings[0]| == 1) ==> ArcOf(arcs, PolygonRef(rings)).None?
    ensures |rings| == 1 && |rings[0]| == 1 ==> ArcOf(arcs, PolygonRef(rings)) == ArcOf(arcs, Index(rings[0][0]))
  {
  }

  // ---------------------------------------------------------------- path data

  function Coords(p: Point, num: real -> string): string
  {
    num(p.x) + "," + num(p.y)
  }

  /** `M x,y` for the first position and `L x,y` for each later one. */
  function Command(arc: seq<Point>, i: nat, num: real -> string): string
    requires i < |arc|
  {
    (if i == 0 then "M " else "L ") + Coords(arc[i], num)
  }

  function Commands(arc: seq<Point>, num: real -> string): (r: seq<string>)
    ensures |r| == |arc| && forall k :: 0 <= k < |arc| ==> r[k] == Command(arc, k, num)
  {
    seq(|arc|, k requires 0 <= k < |arc| => Command(arc, k, num))
  }

  /** The commands joined by spaces, closed by ` Z`. */
  function PathData(arc: seq<Point>, num: real -> string): string
  {
    Join(Commands(arc, num), " ") + " Z"
  }

  /** The path data read as space-separated tokens: a command letter, then its coordinates, per position. */
  function Tokens(arc: seq<Point>, num: real -> string): (r: seq<string>)
    ensures |r| == 2 * |arc|
    ensures forall k :: 0 <= k < |r| ==>
      r[k] == if k % 2 == 1 then Coords(arc[k / 2], num) else if k == 0 then "M" else "L"
  {
    if arc == [] then []
    else
      var init := arc[..|arc| - 1];
      var t := Tokens(init, num);
      assert forall k :: 0 <= k < |init| ==> init[k] == arc[k];
      t + [if |arc| == 1 then "M" else "L", Coords(arc[|arc| - 1], num)]
  }

  /** Writing each command with its inner space is writing all the tokens space-separated. */
  lemma {:induction false} JoinCommands(arc: seq<Point>, num: real -> string)
    requires |arc| >= 1
    ensures Join(Commands(arc, num), " ") == Join(Tokens(arc, num), " ")
    decreases |arc|
  {
    var n := |arc|;
    var c := Coords(arc[n - 1], num);
    if n == 1 {
      assert Commands(arc, num) == ["M " + c];
      assert Tokens(arc, num) == ["M"] + [c];
      JoinCons("M", [c], " ");
      LetterText("M", c);
    } else {
      var init := arc[..n - 1];
      var cs := Commands(init, num);
      var ts := Tokens(init, num);
      assert Commands(arc, num) == cs + ["L " + c] by {
        assert forall k :: 0 <= k < |init| ==> init[k] == arc[k];
      }
      calc {
        Join(Commands(arc, num), " ");
        Join(cs + ["L " + c], " ");
        { JoinClosed(cs, " ", "L " + c); }
        Join(cs, " ") + (" " + ("L " + c));
        { JoinCommands(init, num); }
        Join(ts, " ") + (" " + ("L " + c));
        { LetterText("L", c); AppendAssoc(" ", "L", " " + c); AppendAssoc(Join(ts, " "), " " + "L", " " + c); }
        (Join(ts, " ") + (" " + "L")) + (" " + c);
        { JoinClosed(ts, " ", "L"); }
        Join(ts + ["L"], " ") + (" " + c);
        { JoinClosed(ts + ["L"], " ", c); }
        Join(ts + ["L"] + [c], " ");
        { assert Tokens(arc, num) == ts + ["L", c] == ts + ["L"] + [c]; }
        Join(Tokens(arc, num), " ");
      }
    }
  }

  /** A command letter and its space, then the coordinates. */
  lemma LetterText(letter: string, c: string)
    requires letter == "M" || letter == "L"
    ensures (if letter == "M" then "M " else "L ") + c == letter + (" " + c)
  {
    AppendAssoc(letter, " ", c);
  }

  lemma AppendAssoc(a: string, b: string, c: string)
    ensures a + (b + c) == (a + b) + c
    ensures a + b + c == a + (b + c)
  {
  }

  /**
   * The path data splits on spaces into the command letters, the coordinates and `Z`,
   * provided numbers are written without spaces.
   */
  lemma PathDataSplits(arc: seq<Point>, num: real -> string)
    requires |arc| >= 1 && forall r :: ' ' !in num(r)
    ensures SplitOn(PathData(arc, num), " ") == Tokens(arc, num) + ["Z"]
  {
    var t := Tokens(arc, num);
    PathDataJoin(arc, num);
    TokensLack(arc, num, ' ');
    forall k | 0 <= k < |t + ["Z"]|
      ensures ' ' !in (t + ["Z"])[k]
    {
      if k < |t| {
        assert (t + ["Z"])[k] == t[k];
      }
    }
    SplitJoin(t + ["Z"], ' ');
  }

  lemma PathDataJoin(arc: seq<Point>, num: real -> string)
    requires |arc| >= 1
    ensures PathData(arc, num) == Join(Tokens(arc, num) + ["Z"], [' '])
  {
    JoinCommands(arc, num);
    JoinClosed(Tokens(arc, num), " ", "Z");
    assert " " + "Z" == " Z";
  }

  /** No token holds a character that is neither in a number text nor a comma nor a command letter. */
  lemma {:induction false} TokensLack(arc: seq<Point>, num: real -> string, c: char)
    requires forall r :: c !in num(r)
    requires c != ',' && c != 'M' && c != 'L'
    ensures forall k :: 0 <= k < |Tokens(arc, num)| ==> c !in Tokens(arc, num)[k]
    decreases |arc|
  {
    if arc != [] {
      var init := arc[..|arc| - 1];
      var p := arc[|arc| - 1];
      TokensLack(init, num, c);
      assert forall k :: 0 <= k < |init| ==> init[k] == arc[k];
      var letter := if |arc| == 1 then "M" else "L";
      assert Tokens(arc, num) == Tokens(init, num) + [letter, Coords(p, num)];
      assert Coords(p, num) == num(p.x) + "," + num(p.y);
      assert c !in letter by { assert letter == [letter[0]]; }
    }
  }

  /** A coordinate pair splits on the comma into the two numbers. */
  lemma CoordsSplit(p: Point, num: real -> string)
    requires forall r :: ',' !in num(r)
    ensures SplitOn(Coords(p, num), ",") == [num(p.x), num(p.y)]
  {
    SplitPrefixPiece(num(p.x), ',', num(p.y));
    SplitNoSep(num(p.y), ',');
  }

  // ---------------------------------------------------------------- markup

  /** The standalone path of a drawn geometry, on a line of its own. */
  function PathLine(id: Field, name: Field, d: string): string
  {
    PathHead(id) + d + PathTail(name)
  }

  function PathHead(id: Field): (r: string)
    ensures |r| == 15 + |Show(id)|
  {
    "<path id=\"" + Show(id) + "\" d=\""
  }

  function PathTail(name: Field): string
  {
    "\" fill=\"none\" stroke=\"black\" stroke-width=\"0.5\" data-name=\"" + Show(name) + "\" />\n"
  }

  /** The group of a drawn geometry: the same outline again, and its name at the centre. */
  function GroupBlock(id: Field, name: Field, d: string, center: Point, num: real -> string): string
  {
    GroupHead(id, name) + d + GroupTail(name, center, num)
  }

  function GroupHead(id: Field, name: Field): (r: string)
    ensures |r| == 40 + |Show(id)| + |Show(name)|
  {
    "<g id=\"group-" + Show(id) + "\" data-name=\"" + Show(name) + "\">\n" + "  <path d=\""
  }

  function GroupTail(name: Field, center: Point, num: real -> string): string
  {
    "\" fill=\"none\" stroke=\"black\" stroke-width=\"0.5\" />\n"
    + "  <text x=\"" + num(center.x) + "\" y=\"" + num(center.y)
    + "\" text-anchor=\"middle\" font-size=\"8\">" + Show(name) + "</text>\n"
    + "</g>\n"
  }

  /** The markup functions as values: the loop below is written against any such pair. */
  function PathMarkup(): (Field, Field, string) -> string
  {
    PathLine
  }

  function GroupMarkup(num: real -> string): (Field, Field, string, Point) -> string
  {
    (id, name, d, center) => GroupBlock(id, name, d, center, num)
  }

  /** A geometry that is drawn and whose path line can be written. */
  predicate Emits(arcs: seq<seq<Point>>, g: TopoGeometry)
  {
    DrawnArc(arcs, g).Some? && g.properties.Some?
  }

  function PathOf(arcs: seq<seq<Point>>, g: TopoGeometry, num: real -> string,
                  line: (Field, Field, string) -> string): string
  {
    if Emits(arcs, g) then line(g.id, g.properties.value.name, PathData(DrawnArc(arcs, g).value, num))
    else ""
  }

  function GroupOf(arcs: seq<seq<Point>>, g: TopoGeometry, num: real -> string,
                   block: (Field, Field, string, Point) -> string): string
  {
    if Emits(arcs, g) && g.properties.value.center.Some? then
      block(g.id, g.properties.value.name, PathData(DrawnArc(arcs, g).value, num), g.properties.value.center.value)
    else ""
  }

  /** The pieces written for the geometries, one after another. */
  function Concat(gs: seq<TopoGeometry>, piece: TopoGeometry -> string): string
  {
    if gs == [] then "" else Concat(gs[..|gs| - 1], piece) + piece(gs[|gs| - 1])
  }

  /** `svgPaths` after the given geometries. */
  function PathsOf(arcs: seq<seq<Point>>, gs: seq<TopoGeometry>, num: real -> string,
                   line: (Field, Field, string) -> string): string
  {
    Concat(gs, g => PathOf(arcs, g, num, line))
  }

  /** `svgGroups` after the given geometries. */
  function GroupsOf(arcs: seq<seq<Point>>, gs: seq<TopoGeometry>, num: real -> string,
                    block: (Field, Field, string, Point) -> string): string
  {
    Concat(gs, g => GroupOf(arcs, g, num, block))
  }

  /** `bbox.join(' ')` */
  function ViewBox(bbox: seq<real>, num: real -> string): string
  {
    Join(BoxTexts(bbox, num), " ")
  }

  function BoxTexts(bbox: seq<real>, num: real -> string): (r: seq<string>)
    ensures |r| == |bbox| && forall k :: 0 <= k < |bbox| ==> r[k] == num(bbox[k])
  {
    seq(|bbox|, k requires 0 <= k < |bbox| => num(bbox[k]))
  }

  const PathsComment := "  <!-- 개별 시도군 path들 -->\n"
  const GroupsComment := "  <!-- 시도군 그룹들 (텍스트 포함) -->\n"

  /** The document: XML declaration, the sized `svg` element, the paths, then the groups. */
  function Document(width: real, height: real, bbox: seq<real>, paths: string, groups: string,
                    num: real -> string): string
  {
    "<?xml version=\"1.0\" encoding=\"UTF-8\"?>\n<svg width=\"" + num(width) + "\" height=\"" + num(height)
    + "\" viewBox=\"" + ViewBox(bbox, num) + "\" xmlns=\"http://www.w3.org/2000/svg\">\n"
    + PathsComment + "  " + paths + "\n  \n" + GroupsComment + "  " + groups + "\n</svg>"
  }

  /** The conversion throws: no `sig` geometries, a geometry that throws, or no `bbox`. */
  predicate Fails(topo: Topology)
  {
    topo.geometries.None? || topo.bbox.None?
    || exists k :: 0 <= k < |topo.geometries.value| && Throws(topo.arcs, topo.geometries.value[k])
  }

  // ---------------------------------------------------------------- topoToSVG

  /** `topoToSVG` with its own markup. */
  method TopoToSvg(topo: Topology, width: real, height: real, num: real -> string) returns (r: Option<string>)
    ensures r.None? <==> Fails(topo)
    ensures r.Some? ==> r.value == Document(width, height, topo.bbox.value,
      PathsOf(topo.arcs, topo.geometries.value, num, PathMarkup()),
      GroupsOf(topo.arcs, topo.geometries.value, num, GroupMarkup(num)), num)
  {
    r := Convert(topo, width, height, num, PathMarkup(), GroupMarkup(num));
  }

  /**
   * The geometries in order, each drawn one appending its path line and its group, then the
   * document around both; any thrown `TypeError` is `None`.
   */
  method Convert(topo: Topology, width: real, height: real, num: real -> string,
                 line: (Field, Field, string) -> string, block: (Field, Field, string, Point) -> string)
    returns (r: Option<string>)
    ensures r.None? <==> Fails(topo)
    ensures r.Some? ==> r.value == Document(width, height, topo.bbox.value,
      PathsOf(topo.arcs, topo.geometries.value, num, line), GroupsOf(topo.arcs, topo.geometries.value, num, block), num)
  {
    if topo.geometries.None? {
      return None;
    }
    var gs := topo.geometries.value;
    var svgPaths := "";
    var svgGroups := "";
    for index := 0 to |gs|
      invariant forall k :: 0 <= k < index ==> !Throws(topo.arcs, gs[k])
      invariant svgPaths == PathsOf(topo.arcs, gs[..index], num, line)
      invariant svgGroups == GroupsOf(topo.arcs, gs[..index], num, block)
    {
      var geometry := gs[index];
      assert gs[..index + 1][..index] == gs[..index];
      if geometry.properties.None? || geometry.first.NoArcList? {
        assert Throws(topo.arcs, gs[index]);
        return None;
      }
      var name := geometry.properties.value.name;
      var arc := ArcOf(topo.arcs, geometry.first);
      if arc.Some? && |arc.value| > 0 {
        var pathData := PathData(arc.value, num);
        svgPaths := svgPaths + line(geometry.id, name, pathData);
        if geometry.properties.value.center.None? {
          assert Throws(topo.arcs, gs[index]);
          return None;
        }
        svgGroups := svgGroups + block(geometry.id, name, pathData, geometry.properties.value.center.value);
      }
    }
    assert gs[..|gs|] == gs;
    if topo.bbox.None? {
      return None;
    }
    r := Some(Document(width, height, topo.bbox.value, svgPaths, svgGroups, num));
  }

  // ---------------------------------------------------------------- properties

  /** A geometry without a usable arc adds neither a path nor a group. */
  lemma SkippedAddsNothing(arcs: seq<seq<Point>>, gs: seq<TopoGeometry>, g: TopoGeometry, num: real -> string,
                           line: (Field, Field, string) -> string, block: (Field, Field, string, Point) -> string)
    requires DrawnArc(arcs, g).None?
    ensures PathsOf(arcs, gs + [g], num, line) == PathsOf(arcs, gs, num, line)
    ensures GroupsOf(arcs, gs + [g], num, block) == GroupsOf(arcs, gs, num, block)
  {
    assert (gs + [g])[..|gs|] == gs;
  }

  /** The output of a list of geometries is the output of its first part followed by that of the rest. */
  lemma {:induction false} ConcatAppends(a: seq<TopoGeometry>, b: seq<TopoGeometry>, piece: TopoGeometry -> string)
    ensures Concat(a + b, piece) == Concat(a, piece) + Concat(b, piece)
    decreases |b|
  {
    if b == [] {
      assert a + b == a;
    } else {
      var init, last := b[..|b| - 1], b[|b| - 1];
      ConcatAppends(a, init, piece);
      var ab := a + b;
      assert ab[..|ab| - 1] == a + init && ab[|ab| - 1] == last;
      calc {
        Concat(ab, piece);
        Concat(a + init, piece) + piece(last);
        Concat(a, piece) + Concat(init, piece) + piece(last);
        Concat(a, piece) + (Concat(init, piece) + piece(last));
      }
    }
  }

  lemma OutputAppends(arcs: seq<seq<Point>>, a: seq<TopoGeometry>, b: seq<TopoGeometry>, num: real -> string,
                      line: (Field, Field, string) -> string, block: (Field, Field, string, Point) -> string)
    ensures PathsOf(arcs, a + b, num, line) == PathsOf(arcs, a, num, line) + PathsOf(arcs, b, num, line)
    ensures GroupsOf(arcs, a + b, num, block) == GroupsOf(arcs, a, num, block) + GroupsOf(arcs, b, num, block)
  {
    ConcatAppends(a, b, g => PathOf(arcs, g, num, line));
    ConcatAppends(a, b, g => GroupOf(arcs, g, num, block));
  }

  /**
   * Each emitted geometry, at its place in geometry order, contributes its path line to
   * `svgPaths` and its group to `svgGroups`, both written from the same path data.
   */
  lemma EmittedAt(arcs: seq<seq<Point>>, gs: seq<TopoGeometry>, k: nat, num: real -> string,
                  line: (Field, Field, string) -> string, block: (Field, Field, string, Point) -> string)
    requires k < |gs| && Emits(arcs, gs[k]) && gs[k].properties.value.center.Some?
    ensures var g := gs[k];
      var d := PathData(DrawnArc(arcs, g).value, num);
      PathsOf(arcs, gs, num, line)
        == PathsOf(arcs, gs[..k], num, line) + line(g.id, g.properties.value.name, d)
           + PathsOf(arcs, gs[k + 1..], num, line)
      && GroupsOf(arcs, gs, num, block)
        == GroupsOf(arcs, gs[..k], num, block) + block(g.id, g.properties.value.name, d, g.properties.value.center.value)
           + GroupsOf(arcs, gs[k + 1..], num, block)
  {
    assert gs == gs[..k] + [gs[k]] + gs[k + 1..];
    OutputAppends(arcs, gs[..k] + [gs[k]], gs[k + 1..], num, line, block);
    OutputAppends(arcs, gs[..k], [gs[k]], num, line, block);
    assert [gs[k]][..0] == [];
  }

  /** With the script's own markup the path data is written into both the path line and the group. */
  lemma MarkupCarriesPathData(id: Field, name: Field, d: string, center: Point, num: real -> string)
    ensures OccursAt(PathMarkup()(id, name, d), d, 15 + |Show(id)|)
    ensures OccursAt(GroupMarkup(num)(id, name, d, center), d, 40 + |Show(id)| + |Show(name)|)
  {
    Between(PathHead(id), d, PathTail(name));
    Between(GroupHead(id, name), d, GroupTail(name, center, num));
  }

  lemma Between(pre: string, d: string, post: string)
    ensures OccursAt(pre + d + post, d, |pre|)
  {
    assert (pre + d + post)[|pre|..|pre| + |d|] == d;
  }

  /** The view box splits on spaces back into the four (or however many) bounds. */
  lemma ViewBoxSplits(bbox: seq<real>, num: real -> string)
    requires |bbox| >= 1 && forall r :: ' ' !in num(r)
    ensures SplitOn(ViewBox(bbox, num), " ") == BoxTexts(bbox, num)
  {
    var t := BoxTexts(bbox, num);
    forall k | 0 <= k < |t|
      ensures ' ' !in t[k]
    {
      var x := bbox[k];
      assert t[k] == num(x);
      assert ' ' !in num(x);
    }
    SplitJoin(t, ' ');
  }

  /** A topology whose every part is present converts; the only failures are the thrown ones. */
  lemma WellFormedConverts(topo: Topology)
    requires topo.geometries.Some? && topo.bbox.Some?
    requires forall k :: 0 <= k < |topo.geometries.value| ==>
      var g := topo.geometries.value[k];
      g.properties.Some? && g.properties.value.center.Some? && !g.first.NoArcList?
    ensures !Fails(topo)
  {
  }
}
