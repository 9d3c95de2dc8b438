/**
 * `scripts/build-geo.mjs`: the 42-entry table of Gyeonggi-do 시·군 codes and the two sample
 * generators, which lay square polygons out on a grid and push one feature per square.
 */
module BuildGeo {
  import opened Wrappers
  import opened Text
  import opened Geo

  datatype SigEntry = SigEntry(code: string, name: string)

  /** `GYEONGGI_SIG_CODES` */
  const SigTable: seq<SigEntry> := [
    SigEntry("41111", "수원시 장안구"),
    SigEntry("41113", "수원시 연천구"),
    SigEntry("41115", "수원시 팔달구"),
    SigEntry("41117", "수원시 영통구"),
    SigEntry("41131", "성남시 수정구"),
    SigEntry("41133", "성남시 중원구"),
    SigEntry("41135", "성남시 분당구"),
    SigEntry("41150", "의정부시"),
    SigEntry("41170", "안양시 만안구"),
    SigEntry("41171", "안양시 동안구"),
    SigEntry("41190", "부천시"),
    SigEntry("41210", "광명시"),
    SigEntry("41220", "평택시"),
    SigEntry("41250", "동두천시"),
    SigEntry("41270", "안산시 상록구"),
    SigEntry("41271", "안산시 단원구"),
    SigEntry("41280", "고양시 덕양구"),
    SigEntry("41285", "고양시 일산동구"),
    SigEntry("41287", "고양시 일산서구"),
    SigEntry("41290", "과천시"),
    SigEntry("41310", "구리시"),
    SigEntry("41360", "남양주시"),
    SigEntry("41370", "오산시"),
    SigEntry("41390", "시흥시"),
    SigEntry("41410", "군포시"),
    SigEntry("41430", "의왕시"),
    SigEntry("41450", "하남시"),
    SigEntry("41460", "용인시 처인구"),
    SigEntry("41463", "용인시 기흥구"),
    SigEntry("41465", "용인시 수지구"),
    SigEntry("41480", "파주시"),
    SigEntry("41500", "이천시"),
    SigEntry("41550", "안성시"),
    SigEntry("41570", "김포시"),
    SigEntry("41590", "화성시"),
    SigEntry("41610", "광주시"),
    SigEntry("41630", "양주시"),
    SigEntry("41650", "포천시"),
    SigEntry("41670", "여주시"),
    SigEntry("41800", "연천군"),
    SigEntry("41820", "가평군"),
    SigEntry("41830", "양평군")
  ]

  /** The code column of the table. */
  const Codes: seq<string> := [
    "41111", "41113", "41115", "41117", "41131", "41133", "41135", "41150", "41170", "41171",
    "41190", "41210", "41220", "41250", "41270", "41271", "41280", "41285", "41287", "41290",
    "41310", "41360", "41370", "41390", "41410", "41430", "41450", "41460", "41463", "41465",
    "41480", "41500", "41550", "41570", "41590", "41610", "41630", "41650", "41670", "41800",
    "41820", "41830"]

  lemma CodeColumn()
    ensures |Codes| == |SigTable| == 42
    ensures forall k :: 0 <= k < |SigTable| ==> SigTable[k].code == Codes[k]
  {
  }

  // ---------------------------------------------------------------- the codes are distinct

  /** The code at position `b` differs from every earlier code. */
  predicate FreshAt(b: nat)
    requires b < |Codes|
  {
    forall a :: 0 <= a < b ==> Codes[a] != Codes[b]
  }

  lemma Fresh1() ensures FreshAt(1) {}
  lemma Fresh2() ensures FreshAt(2) {}
  lemma Fresh3() ensures FreshAt(3) {}
  lemma Fresh4() ensures FreshAt(4) {}
  lemma Fresh5() ensures FreshAt(5) {}
  lemma Fresh6() ensures FreshAt(6) {}
  lemma Fresh7() ensures FreshAt(7) {}
  lemma Fresh8() ensures FreshAt(8) {}
  lemma Fresh9() ensures FreshAt(9) {}
  lemma Fresh10() ensures FreshAt(10) {}
  lemma Fresh11() ensures FreshAt(11) {}
  lemma Fresh12() ensures FreshAt(12) {}
  lemma Fresh13() ensures FreshAt(13) {}
  lemma Fresh14() ensures FreshAt(14) {}
  lemma Fresh15() ensures FreshAt(15) {}
  lemma Fresh16() ensures FreshAt(16) {}
  lemma Fresh17() ensures FreshAt(17) {}
  lemma Fresh18() ensures FreshAt(18) {}
  lemma Fresh19() ensures FreshAt(19) {}
  lemma Fresh20() ensures FreshAt(20) {}
  lemma Fresh21() ensures FreshAt(21) {}
  lemma Fresh22() ensures FreshAt(22) {}
  lemma Fresh23() ensures FreshAt(23) {}
  lemma Fresh24() ensures FreshAt(24) {}
  lemma Fresh25() ensures FreshAt(25) {}
  lemma Fresh26() ensures FreshAt(26) {}
  lemma Fresh27() ensures FreshAt(27) {}
  lemma Fresh28() ensures FreshAt(28) {}
  lemma Fresh29() ensures FreshAt(29) {}
  lemma Fresh30() ensures FreshAt(30) {}
  lemma Fresh31() ensures FreshAt(31) {}
  lemma Fresh32() ensures FreshAt(32) {}
  lemma Fresh33() ensures FreshAt(33) {}
  lemma Fresh34() ensures FreshAt(34) {}
  lemma Fresh35() ensures FreshAt(35) {}
  lemma Fresh36() ensures FreshAt(36) {}
  lemma Fresh37() ensures FreshAt(37) {}
  lemma Fresh38() ensures FreshAt(38) {}
  lemma Fresh39() ensures FreshAt(39) {}
  lemma Fresh40() ensures FreshAt(40) {}
  lemma Fresh41() ensures FreshAt(41) {}

  /** Every position of the column is fresh. */
  lemma FreshBelow(b: nat)
    requires 1 <= b < |Codes|
    ensures FreshAt(b)
  {
    match b {
      case 1 => Fresh1();
      case 2 => Fresh2();
      case 3 => Fresh3();
      case 4 => Fresh4();
      case 5 => Fresh5();
      case 6 => Fresh6();
      case 7 => Fresh7();
      case 8 => Fresh8();
      case 9 => Fresh9();
      case 10 => Fresh10();
      case 11 => Fresh11();
      case 12 => Fresh12();
      case 13 => Fresh13();
      case 14 => Fresh14();
      case 15 => Fresh15();
      case 16 => Fresh16();
      case 17 => Fresh17();
      case 18 => Fresh18();
      case 19 => Fresh19();
      case 20 => Fresh20();
      case 21 => Fresh21();
      case 22 => Fresh22();
      case 23 => Fresh23();
      case 24 => Fresh24();
      case 25 => Fresh25();
      case 26 => Fresh26();
      case 27 => Fresh27();
      case 28 => Fresh28();
      case 29 => Fresh29();
      case 30 => Fresh30();
      case 31 => Fresh31();
      case 32 => Fresh32();
      case 33 => Fresh33();
      case 34 => Fresh34();
      case 35 => Fresh35();
      case 36 => Fresh36();
      case 37 => Fresh37();
      case 38 => Fresh38();
      case 39 => Fresh39();
      case 40 => Fresh40();
      case 41 => Fresh41();
    }
  }

  /** No code appears twice in the table. */
  lemma CodesDistinct()
    ensures forall i, j :: 0 <= i < j < |SigTable| ==> SigTable[i].code != SigTable[j].code
  {
    CodeColumn();
    forall i, j | 0 <= i < j < |SigTable|
      ensures SigTable[i].code != SigTable[j].code
    {
      FreshBelow(j);
    }
  }

  // ---------------------------------------------------------------- squares

  /** A closed square ring of half-width `offset`, counter-clockwise from the south-west corner. */
  function Square(c: Point, offset: real): (r: Ring)
    ensures |r| == 5 && r[0] == r[4]
  {
    [Point(c.x - offset, c.y - offset), Point(c.x + offset, c.y - offset), Point(c.x + offset, c.y + offset),
     Point(c.x - offset, c.y + offset), Point(c.x - offset, c.y - offset)]
  }

  /** `turf.bbox`: `[minX, minY, maxX, maxY]` over the points. */
  function BboxOf(ring: Ring): (r: seq<real>)
    requires |ring| > 0
    ensures |r| == 4
  {
    var h := Hull(ring);
    [h.minX, h.minY, h.maxX, h.maxY]
  }

  /** The box of a square is the square itself: centre minus and plus the offset. */
  lemma {:induction false} SquareBox(c: Point, offset: real)
    requires offset >= 0.0
    ensures BboxOf(Square(c, offset)) == [c.x - offset, c.y - offset, c.x + offset, c.y + offset]
  {
    var r := Square(c, offset);
    var lo, hi := Point(c.x - offset, c.y - offset), Point(c.x + offset, c.y + offset);
    assert r[..1] == [r[0]];
    assert Hull(r[..1]) == Box(lo.x, lo.y, lo.x, lo.y);
    assert r[..2][..1] == r[..1];
    assert Hull(r[..2]) == Box(lo.x, lo.y, hi.x, lo.y);
    assert r[..3][..2] == r[..2];
    assert Hull(r[..3]) == Box(lo.x, lo.y, hi.x, hi.y);
    assert r[..4][..3] == r[..3];
    assert Hull(r[..4]) == Box(lo.x, lo.y, hi.x, hi.y);
    assert r[..4] == r[..|r| - 1];
  }

  // ---------------------------------------------------------------- generateSampleSigData

  const SigBase := Point(127.2, 37.4)
  const GridSize := 0.3
  const SigOffset := 0.1
  const SigSampleSize := 12

  /** Sample `index` sits at row `index / 4`, column `index % 4` of the grid around the base. */
  function SigCenter(index: nat): Point
  {
    Point(SigBase.x + ((index % 4) as real - 1.5) * GridSize, SigBase.y + ((index / 4) as real - 1.0) * GridSize)
  }

  /** The feature pushed for table entry `sig` at position `index`. */
  function SigFeature(index: nat, sig: SigEntry): Feature
  {
    var ring := Square(SigCenter(index), SigOffset);
    Feature(Some(sig.code), Properties(Some(sig.code), Some(sig.name), Some(SigCenter(index)), Some(BboxOf(ring)), None),
            Polygon([ring]))
  }

  /** `generateSampleSigData`: one feature for each of the first twelve table entries, in table order. */
  method GenerateSampleSigData() returns (features: seq<Feature>)
    ensures |features| == SigSampleSize
    ensures forall k :: 0 <= k < |features| ==> features[k] == SigFeature(k, SigTable[k])
  {
    features := [];
    var index := 0;
    while index < SigSampleSize
      invariant 0 <= index <= SigSampleSize
      invariant |features| == index
      invariant forall k :: 0 <= k < index ==> features[k] == SigFeature(k, SigTable[k])
    {
      features := features + [SigFeature(index, SigTable[index])];
      index := index + 1;
    }
  }

  /** The sample features have distinct ids, each the code of its table entry. */
  lemma SigIdsUnique(i: nat, j: nat)
    requires i < j < SigSampleSize
    ensures SigFeature(i, SigTable[i]).id != SigFeature(j, SigTable[j]).id
    ensures SigFeature(i, SigTable[i]).id == SigFeature(i, SigTable[i]).properties.code == Some(SigTable[i].code)
  {
    CodesDistinct();
  }

  /** Different grid positions have different centres, so no two sample squares coincide. */
  lemma SigCentersDistinct(i: nat, j: nat)
    requires i < j < SigSampleSize
    ensures SigCenter(i) != SigCenter(j)
  {
    assert i == 4 * (i / 4) + i % 4;
    assert j == 4 * (j / 4) + j % 4;
    if i % 4 != j % 4 {
      assert SigCenter(i).x != SigCenter(j).x;
    } else {
      assert i / 4 != j / 4;
      assert SigCenter(i).y != SigCenter(j).y;
    }
  }

  /** Every sample ring is a closed square of half-width 0.1, and its `bbox` is that square. */
  lemma SigGeometry(index: nat, sig: SigEntry)
    ensures var f := SigFeature(index, sig);
      var c := SigCenter(index);
      f.geometry.Polygon? && |f.geometry.rings| == 1 && |f.geometry.rings[0]| == 5
      && f.geometry.rings[0][0] == f.geometry.rings[0][4]
      && f.properties.bbox == Some([c.x - SigOffset, c.y - SigOffset, c.x + SigOffset, c.y + SigOffset])
  {
    SquareBox(SigCenter(index), SigOffset);
  }

  // ---------------------------------------------------------------- generateSampleEmdData

  const EmdNames: seq<string> := ["제1동", "제2동", "제3동", "제4동"]
  const SubGridSize := 0.05
  const EmdOffset := 0.02

  /** `GYEONGGI_SIG_CODES.find(s => s.code === sigCode)` */
  function FindSig(table: seq<SigEntry>, code: string): (r: Option<SigEntry>)
    ensures r.Some? <==> exists k :: 0 <= k < |table| && table[k].code == code
    ensures r.Some? ==> r.value in table && r.value.code == code
  {
    if table == [] then None
    else if table[0].code == code then Some(table[0])
    else
      var r := FindSig(table[1..], code);
      assert forall k :: 1 <= k < |table| ==> table[k] == table[1..][k - 1];
      r
  }

  /** `String(n).padStart(2, '0')` */
  function Pad2(n: nat): (r: string)
    ensures 2 <= |r| && (n < 10 ==> r == "0" + NatStr(n))
  {
    var s := NatStr(n);
    if |s| < 2 then "0" + s else s
  }

  /** 읍/면/동 `index` sits at row `index / 2`, column `index % 2` around the fixed base. */
  function EmdCenter(index: nat): Point
  {
    Point(SigBase.x + ((index % 2) as real - 0.5) * SubGridSize, SigBase.y + ((index / 2) as real - 0.5) * SubGridSize)
  }

  function EmdCode(sigCode: string, index: nat): string
  {
    sigCode + Pad2(index + 1)
  }

  function EmdFeature(sigCode: string, index: nat): Feature
    requires index < |EmdNames|
  {
    var ring := Square(EmdCenter(index), EmdOffset);
    var code := EmdCode(sigCode, index);
    Feature(Some(code), Properties(Some(code), Some(EmdNames[index]), Some(EmdCenter(index)), Some(BboxOf(ring)), Some(sigCode)),
            Polygon([ring]))
  }

  /**
   * `generateSampleEmdData`: `null` for a code the table lacks; otherwise four features named
   * 제1동 to 제4동, coded by the 시·군 code and a two-digit number, with the 시·군 as parent.
   */
  method GenerateSampleEmdData(sigCode: string) returns (r: Option<seq<Feature>>)
    ensures r.None? <==> forall k :: 0 <= k < |SigTable| ==> SigTable[k].code != sigCode
    ensures r.Some? ==> |r.value| == |EmdNames| && forall k :: 0 <= k < |r.value| ==> r.value[k] == EmdFeature(sigCode, k)
  {
    var table := SigTable;
    var sig := FindSig(table, sigCode);
    if sig.None? {
      return None;
    }
    var features := EmdFeatures(sigCode);
    r := Some(features);
  }

  /** The loop of `generateSampleEmdData` that pushes the four 읍/면/동 features in order. */
  method EmdFeatures(sigCode: string) returns (features: seq<Feature>)
    ensures |features| == |EmdNames|
    ensures forall k :: 0 <= k < |features| ==> features[k] == EmdFeature(sigCode, k)
  {
    features := [];
    var index := 0;
    while index < |EmdNames|
      invariant 0 <= index <= |EmdNames|
      invariant |features| == index
      invariant forall k :: 0 <= k < index ==> features[k] == EmdFeature(sigCode, k)
    {
      var prev := features;
      features := features + [EmdFeature(sigCode, index)];
      assert features[..index] == prev;
      index := index + 1;
    }
  }

  /** The 읍/면/동 codes extend the 시·군 code by `01` to `04`, and are distinct. */
  lemma EmdCodes(sigCode: string, i: nat, j: nat)
    requires i < j < |EmdNames|
    ensures EmdCode(sigCode, i) == sigCode + "0" + NatStr(i + 1)
    ensures IsPrefix(sigCode, EmdCode(sigCode, i)) && |EmdCode(sigCode, i)| == |sigCode| + 2
    ensures EmdCode(sigCode, i) != EmdCode(sigCode, j)
    ensures EmdFeature(sigCode, i).properties.parent == Some(sigCode)
  {
    var a := EmdCode(sigCode, i);
    var b := EmdCode(sigCode, j);
    assert a[|sigCode| + 1] != b[|sigCode| + 1];
  }

  /** The 읍/면/동 geometry does not depend on the 시·군: the base point is fixed. */
  lemma EmdGeometryIgnoresSig(c1: string, c2: string, index: nat)
    requires index < |EmdNames|
    ensures EmdFeature(c1, index).geometry == EmdFeature(c2, index).geometry
    ensures EmdFeature(c1, index).properties.center == EmdFeature(c2, index).properties.center
    ensures EmdFeature(c1, index).properties.name == EmdFeature(c2, index).properties.name
  {
  }
}
