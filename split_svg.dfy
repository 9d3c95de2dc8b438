/**
 * `scripts/split-gyeonggi-svg.mjs`: the test grid that stands in for the 시·군 map. The
 * nested loops walk a 4×4 grid, placing one table region per cell while the table lasts,
 * and append each region's markup to the SVG text.
 */
module SplitSvg {
  import opened Wrappers
  import opened Text

  datatype Region = Region(id: string, name: string, color: string)

  /** `GYEONGGI_REGIONS` */
  const Regions: seq<Region> := [
    Region("41111", "수원시 장안구", "#FFE4E1"),
    Region("41113", "수원시 권선구", "#E6E6FA"),
    Region("41115", "수원시 팔달구", "#F0F8FF"),
    Region("41117", "수원시 영통구", "#F5F5DC"),
    Region("41131", "성남시 수정구", "#FFE4B5"),
    Region("41133", "성남시 중원구", "#E0FFFF"),
    Region("41135", "성남시 분당구", "#FFF0F5"),
    Region("41150", "의정부시", "#F0FFF0"),
    Region("41170", "안양시 만안구", "#FFF8DC"),
    Region("41171", "안양시 동안구", "#FDF5E6"),
    Region("41190", "부천시", "#F5F5F5"),
    Region("41210", "광명시", "#FFEFD5"),
    Region("41220", "평택시", "#F0F8FF"),
    Region("41250", "동두천시", "#FFF0F5"),
    Region("41270", "안산시", "#F0FFF0"),
    Region("41280", "고양시", "#FFF8DC"),
    Region("41285", "고양시 덕양구", "#FDF5E6"),
    Region("41287", "고양시 일산동구", "#F5F5F5"),
    Region("41290", "고양시 일산서구", "#FFEFD5"),
    Region("41310", "과천시", "#FFE4E1"),
    Region("41360", "구리시", "#E6E6FA"),
    Region("41370", "남양주시", "#F0F8FF"),
    Region("41390", "오산시", "#F5F5DC"),
    Region("41410", "시흥시", "#FFE4B5"),
    Region("41430", "군포시", "#E0FFFF"),
    Region("41450", "의왕시", "#FFF0F5"),
    Region("41460", "하남시", "#F0FFF0"),
    Region("41480", "용인시", "#FFF8DC"),
    Region("41481", "용인시 처인구", "#FDF5E6"),
    Region("41482", "용인시 기흥구", "#F5F5F5"),
    Region("41483", "용인시 수지구", "#FFEFD5"),
    Region("41500", "파주시", "#FFE4E1"),
    Region("41550", "이천시", "#E6E6FA"),
    Region("41570", "안성시", "#F0F8FF"),
    Region("41590", "김포시", "#F5F5DC"),
    Region("41610", "화성시", "#FFE4B5"),
    Region("41630", "광주시", "#E0FFFF"),
    Region("41650", "여주시", "#FFF0F5"),
    Region("41800", "양평군", "#F0FFF0"),
    Region("41820", "고양군", "#FFF8DC"),
    Region("41830", "연천군", "#FDF5E6"),
    Region("41840", "가평군", "#F5F5F5"),
    Region("41850", "포천군", "#FFEFD5")
  ]

  const GridSize := 4
  const CanvasWidth := 385.0
  const CanvasHeight := 435.0
  const CellWidth := CanvasWidth / 4.0
  const CellHeight := CanvasHeight / 4.0

  // ---------------------------------------------------------------- the path check

  /** `t` appears in `s` starting at index `i`. */
  predicate At(s: string, t: string, i: int)
  {
    0 <= i && i + |t| <= |s| && forall m :: 0 <= m < |t| ==> s[i + m] == t[m]
  }

  /**
   * A match of `/<path[^>]*d="([^"]*)"[^>]*>/` spanning `s[i..l+1]`: `<path`, no `>` up to
   * `d="`, the attribute value up to the quote at `k`, and a `>` at `l` with none between.
   */
  predicate PathTagAt(s: string, i: int, j: int, k: int, l: int)
  {
    0 <= i && i + 5 <= j && j + 3 <= k < l < |s|
    && At(s, "<path", i) && At(s, "d=\"", j)
    && (forall m :: i + 5 <= m < j ==> s[m] != '>')
    && (forall m :: j + 3 <= m < k ==> s[m] != '"') && s[k] == '"'
    && (forall m :: k < m < l ==> s[m] != '>') && s[l] == '>'
  }

  predicate HasPathTag(s: string)
  {
    exists i, j, k, l | 0 <= i < |s| && 0 <= j < |s| && 0 <= k < |s| && 0 <= l < |s| :: PathTagAt(s, i, j, k, l)
  }

  /** The search is unanchored: a tag is found wherever it sits in the text. */
  lemma PathTagInContext(p: string, s: string, q: string)
    requires HasPathTag(s)
    ensures HasPathTag(p + s + q)
  {
    var i, j, k, l :| 0 <= i < |s| && 0 <= j < |s| && 0 <= k < |s| && 0 <= l < |s| && PathTagAt(s, i, j, k, l);
    var t := p + s + q;
    var n := |p|;
    assert forall m :: n <= m < n + |s| ==> t[m] == s[m - n];
    assert PathTagAt(t, n + i, n + j, n + k, n + l);
  }

  /** Text without `<` holds no path tag, so the split is abandoned. */
  lemma NoAngleNoTag(s: string)
    requires '<' !in s
    ensures !HasPathTag(s)
  {
    forall i, j, k, l | 0 <= i < |s| && 0 <= j < |s| && 0 <= k < |s| && 0 <= l < |s|
      ensures !PathTagAt(s, i, j, k, l)
    {
      if i + 5 <= |s| {
        assert s[i + 0] != "<path"[0];
      }
    }
  }

  /** The smallest tag the pattern accepts: an empty `d` attribute. */
  lemma EmptyPathTag()
    ensures HasPathTag("<path d=\"\">")
  {
    var s := "<path d=\"\">";
    assert PathTagAt(s, 0, 6, 9, 10);
  }

  // ---------------------------------------------------------------- the grid

  /** A region placed in a cell: its origin and the centre where its label goes. */
  datatype Cell = Cell(region: Region, x: real, y: real, width: real, height: real, labelX: real, labelY: real)

  /** The `k`-th emitted region is table entry `k`, at row `k / 4` and column `k % 4`. */
  function Place(regions: seq<Region>, k: nat): (c: Cell)
    requires k < |regions|
  {
    var x := (k % GridSize) as real * CellWidth;
    var y := (k / GridSize) as real * CellHeight;
    Cell(regions[k], x, y, CellWidth, CellHeight, x + CellWidth / 2.0, y + CellHeight / 2.0)
  }

  /** The markup appended for one cell; `num` writes a number as template interpolation does. */
  function CellText(c: Cell, num: real -> string): string
  {
    "  <!-- " + c.region.name + " -->\n"
    + "  <g id=\"" + c.region.id + "\" class=\"region\" data-name=\"" + c.region.name + "\">\n"
    + "    <rect x=\"" + num(c.x) + "\" y=\"" + num(c.y) + "\" width=\"" + num(c.width)
    + "\" height=\"" + num(c.height) + "\" \n"
    + "          fill=\"" + c.region.color + "\" stroke=\"#333\" stroke-width=\"1\" \n"
    + "          data-region-id=\"" + c.region.id + "\" />\n"
    + "    <text x=\"" + num(c.labelX) + "\" y=\"" + num(c.labelY) + "\" \n"
    + "          class=\"region-text\" fill=\"#333\">" + c.region.name + "</text>\n"
    + "  </g>\n"
  }

  /** The template of the loop body, with the numbers written by `num`. */
  function CellMarkup(num: real -> string): Cell -> string
  {
    c => CellText(c, num)
  }

  /** The markup of the first `n` placed regions, in placement order, each rendered by `render`. */
  function Body(regions: seq<Region>, n: nat, render: Cell -> string): string
    requires n <= |regions|
  {
    if n == 0 then "" else Body(regions, n - 1, render) + render(Place(regions, n - 1))
  }

  /** The number of regions the 4×4 grid has room for. */
  function Emitted(regions: seq<Region>): (n: nat)
    ensures n <= |regions| && n <= GridSize * GridSize
    ensures n == |regions| || n == GridSize * GridSize
  {
    if |regions| < GridSize * GridSize then |regions| else GridSize * GridSize
  }

  const Header := "<?xml version=\"1.0\" encoding=\"UTF-8\"?>\n"
    + "<svg width=\"385\" height=\"435\" viewBox=\"0 0 385 435\" xmlns=\"http://www.w3.org/2000/svg\">\n"
    + "  <defs>\n"
    + "    <style>\n"
    + "      .region { cursor: pointer; transition: fill 0.3s ease; }\n"
    + "      .region:hover { fill-opacity: 0.8; }\n"
    + "      .region-text { font-size: 10px; text-anchor: middle; pointer-events: none; }\n"
    + "    </style>\n"
    + "  </defs>\n"
    + "  \n"
    + "  <!-- 배경 -->\n"
    + "  <rect width=\"100%\" height=\"100%\" fill=\"#f8f9fa\"/>\n"
    + "  \n"
    + "  <!-- 시도군별 영역 (테스트용 격자) -->\n"
  const Footer := "</svg>"

  /**
   * `splitGyeonggiSVG` on the text of the existing map: nothing when the text holds no path
   * tag; otherwise the header, one cell per table region while the grid has room, and the
   * closing tag.
   */
  method SplitGyeonggiSvg(svgContent: string, num: real -> string) returns (r: Option<string>)
    ensures r.None? <==> !HasPathTag(svgContent)
    ensures r.Some? ==> r.value == Header + Body(Regions, Emitted(Regions), CellMarkup(num)) + Footer
  {
    r := SplitRegions(svgContent, Header, Regions, CellMarkup(num));
  }

  /** The walk itself, over the header it starts from, a region table and a cell template. */
  method SplitRegions(svgContent: string, header: string, regions: seq<Region>, render: Cell -> string)
    returns (r: Option<string>)
    ensures r.None? <==> !HasPathTag(svgContent)
    ensures r.Some? ==> r.value == header + Body(regions, Emitted(regions), render) + Footer
  {
    if !HasPathTag(svgContent) {
      return None;
    }
    var newSvg := header;
    var regionIndex := 0;
    for row := 0 to GridSize
      invariant regionIndex == Min(row * GridSize, |regions|)
      invariant newSvg == header + Body(regions, regionIndex, render)
    {
      for col := 0 to GridSize
        invariant regionIndex == Min(row * GridSize + col, |regions|)
        invariant newSvg == header + Body(regions, regionIndex, render)
      {
        if regionIndex < |regions| {
          var region := regions[regionIndex];
          var x := col as real * CellWidth;
          var y := row as real * CellHeight;
          var cell := Cell(region, x, y, CellWidth, CellHeight, x + CellWidth / 2.0, y + CellHeight / 2.0);
          PlaceAt(regions, row, col);
          AppendAssoc(header, Body(regions, regionIndex, render), render(cell));
          newSvg := newSvg + render(cell);
          regionIndex := regionIndex + 1;
        }
      }
    }
    assert regionIndex == Emitted(regions);
    r := Some(newSvg + Footer);
  }

  function Min(a: int, b: int): int { if a <= b then a else b }

  lemma AppendAssoc(a: string, b: string, c: string)
    ensures a + b + c == a + (b + c)
  {
  }

  /** Cell `(row, col)` of the walk is the `4 * row + col`-th. */
  lemma GridPosition(row: nat, col: nat)
    requires col < GridSize
    ensures (row * GridSize + col) % GridSize == col && (row * GridSize + col) / GridSize == row
  {
  }

  /** The walk's cell `(row, col)` holds the region `Place` puts there. */
  lemma PlaceAt(regions: seq<Region>, row: nat, col: nat)
    requires col < GridSize && row * GridSize + col < |regions|
    ensures var x, y := col as real * CellWidth, row as real * CellHeight;
      Place(regions, row * GridSize + col)
      == Cell(regions[row * GridSize + col], x, y, CellWidth, CellHeight, x + CellWidth / 2.0, y + CellHeight / 2.0)
  {
    GridPosition(row, col);
  }



  /** The script's own table: sixteen of its 43 regions fit the grid, the rest are never drawn. */
  lemma SixteenOfTheTable()
    ensures |Regions| == 43 && Emitted(Regions) == 16
  {
  }

  /** Each placed cell lies inside the 385×435 canvas with its label strictly inside the cell. */
  lemma CellsInsideCanvas(regions: seq<Region>, k: nat)
    requires k < Emitted(regions)
    ensures var c := Place(regions, k);
      0.0 <= c.x && c.x + CellWidth <= CanvasWidth && 0.0 <= c.y && c.y + CellHeight <= CanvasHeight
      && c.x < c.labelX < c.x + CellWidth && c.y < c.labelY < c.y + CellHeight
  {
  }

  /** Distinct regions get distinct cells: no two regions are drawn over each other. */
  lemma CellsDistinct(regions: seq<Region>, i: nat, j: nat)
    requires i < j < |regions|
    ensures Place(regions, i).x != Place(regions, j).x || Place(regions, i).y != Place(regions, j).y
  {
    assert i == GridSize * (i / GridSize) + i % GridSize;
    assert j == GridSize * (j / GridSize) + j % GridSize;
    if i % GridSize == j % GridSize {
      assert i / GridSize != j / GridSize;
      assert Place(regions, i).y != Place(regions, j).y;
    }
  }

  /** Appending regions only appends markup: the text for `n` cells is a prefix of that for more. */
  lemma {:induction false} BodyGrows(regions: seq<Region>, m: nat, n: nat, render: Cell -> string)
    requires m <= n <= |regions|
    ensures IsPrefix(Body(regions, m, render), Body(regions, n, render))
    decreases n
  {
    if m < n {
      BodyGrows(regions, m, n - 1, render);
    }
  }
}
