/**
 * `src/components/region/RegionPickerGyeonggi.jsx`: the 31 시·군 of Gyeonggi-do, their
 * six map zones, the list search and the zone and city selection handlers.
 */
module GyeonggiPicker {
  import opened Wrappers
  import opened Text
  import opened Seqs

  /** `label` is the displayed name. */
  datatype City = City(id: string, name: string, zone: string)

  const Cities: seq<City> := [
    City("suwon", "수원시", "central"),
    City("seongnam", "성남시", "central"),
    City("goyang", "고양시", "northwest"),
    City("yongin", "용인시", "central"),
    City("bucheon", "부천시", "central"),
    City("ansan", "안산시", "southwest"),
    City("anyang", "안양시", "central"),
    City("namyangju", "남양주시", "northeast"),
    City("hwaseong", "화성시", "southwest"),
    City("pyeongtaek", "평택시", "southwest"),
    City("uijeongbu", "의정부시", "north"),
    City("siheung", "시흥시", "southwest"),
    City("gimpo", "김포시", "northwest"),
    City("gwangmyeong", "광명시", "central"),
    City("gwangju-gg", "광주시(경기)", "central"),
    City("gunpo", "군포시", "central"),
    City("uiwang", "의왕시", "central"),
    City("hanam", "하남시", "central"),
    City("osan", "오산시", "central"),
    City("icheon", "이천시", "southeast"),
    City("anseong", "안성시", "southeast"),
    City("paju", "파주시", "northwest"),
    City("yangju", "양주시", "north"),
    City("pocheon", "포천시", "northeast"),
    City("yeoju", "여주시", "southeast"),
    City("dongducheon", "동두천시", "north"),
    City("guri", "구리시", "northeast"),
    City("gwacheon", "과천시", "central"),
    City("gapyeong", "가평군", "northeast"),
    City("yangpyeong", "양평군", "southeast"),
    City("yeoncheon", "연천군", "north")
  ]

  datatype Zone = Zone(id: string, name: string, cities: seq<string>)

  const Central := Zone("central", "중부권", ["suwon", "seongnam", "yongin", "bucheon", "anyang", "gwangmyeong",
                                             "gwangju-gg", "gunpo", "uiwang", "hanam", "osan", "gwacheon"])
  const Northwest := Zone("northwest", "서북부권", ["goyang", "gimpo", "paju"])
  const Northeast := Zone("northeast", "동북부권", ["namyangju", "pocheon", "guri", "gapyeong"])
  const Southwest := Zone("southwest", "서남부권", ["ansan", "hwaseong", "pyeongtaek", "siheung"])
  const Southeast := Zone("southeast", "동남부권", ["icheon", "anseong", "yeoju", "yangpyeong"])
  const North := Zone("north", "북부권", ["uijeongbu", "yangju", "dongducheon", "yeoncheon"])

  const Zones: map<string, Zone> := map[
    "central" := Central, "northwest" := Northwest, "northeast" := Northeast,
    "southwest" := Southwest, "southeast" := Southeast, "north" := North]

  // ---------------------------------------------------------------- table consistency

  /** The id column of the city table. */
  const CityIds: seq<string> := [
    "suwon", "seongnam", "goyang", "yongin", "bucheon", "ansan", "anyang", "namyangju", "hwaseong", "pyeongtaek", "uijeongbu", "siheung", "gimpo", "gwangmyeong", "gwangju-gg", "gunpo", "uiwang", "hanam", "osan", "icheon", "anseong", "paju", "yangju", "pocheon", "yeoju", "dongducheon", "guri", "gwacheon", "gapyeong", "yangpyeong", "yeoncheon"]

  lemma IdColumn()
    ensures |CityIds| == |Cities| == 31
    ensures forall k :: 0 <= k < |Cities| ==> Cities[k].id == CityIds[k]
  {
  }

  /** The id at position `b` differs from every earlier id. */
  predicate FreshAt(b: nat)
    requires b < |CityIds|
  {
    forall a :: 0 <= a < b ==> CityIds[a] != CityIds[b]
  }

  lemma Fresh1() ensures FreshAt(1) {}
  lemma Fresh2() ensures FreshAt(2) {}
  lemma Fresh3() ensures FreshAt(3) {}
  lemma Fresh4() ensures FreshAt(4) {}
  lemma Fresh5() ensures FreshAt(5) {}
  lemma Fresh6() ensures FreshAt(6) {}
  lemma Fresh7() ensures FreshAt(7) {}
  lemma Fresh8() ensures FreshAt(8) {}
  lemma Fresh9() ensures FreshAt(9) {}
  lemma Fresh10() ensures FreshAt(10) {}
  lemma Fresh11() ensures FreshAt(11) {}
  lemma Fresh12() ensures FreshAt(12) {}
  lemma Fresh13() ensures FreshAt(13) {}
  lemma Fresh14() ensures FreshAt(14) {}
  lemma Fresh15() ensures FreshAt(15) {}
  lemma Fresh16() ensures FreshAt(16) {}
  lemma Fresh17() ensures FreshAt(17) {}
  lemma Fresh18() ensures FreshAt(18) {}
  lemma Fresh19() ensures FreshAt(19) {}
  lemma Fresh20() ensures FreshAt(20) {}
  lemma Fresh21() ensures FreshAt(21) {}
  lemma Fresh22() ensures FreshAt(22) {}
  lemma Fresh23() ensures FreshAt(23) {}
  lemma Fresh24() ensures FreshAt(24) {}
  lemma Fresh25() ensures FreshAt(25) {}
  lemma Fresh26() ensures FreshAt(26) {}
  lemma Fresh27() ensures FreshAt(27) {}
  lemma Fresh28() ensures FreshAt(28) {}
  lemma Fresh29() ensures FreshAt(29) {}
  lemma Fresh30() ensures FreshAt(30) {}

  /** Every position of the column is fresh. */
  lemma FreshBelow(b: nat)
    requires 1 <= b < |CityIds|
    ensures FreshAt(b)
  {
    match b {
      case 1 => Fresh1();
      case 2 => Fresh2();
      case 3 => Fresh3();
      case 4 => Fresh4();
      case 5 => Fresh5();
      case 6 => Fresh6();
      case 7 => Fresh7();
      case 8 => Fresh8();
      case 9 => Fresh9();
      case 10 => Fresh10();
      case 11 => Fresh11();
      case 12 => Fresh12();
      case 13 => Fresh13();
      case 14 => Fresh14();
      case 15 => Fresh15();
      case 16 => Fresh16();
      case 17 => Fresh17();
      case 18 => Fresh18();
      case 19 => Fresh19();
      case 20 => Fresh20();
      case 21 => Fresh21();
      case 22 => Fresh22();
      case 23 => Fresh23();
      case 24 => Fresh24();
      case 25 => Fresh25();
      case 26 => Fresh26();
      case 27 => Fresh27();
      case 28 => Fresh28();
      case 29 => Fresh29();
      case 30 => Fresh30();
    }
  }

  /** 31 cities with pairwise distinct ids. */
  lemma CityIdsDistinct()
    ensures |Cities| == 31
    ensures forall a, b :: 0 <= a < b < |Cities| ==> Cities[a].id != Cities[b].id
  {
    IdColumn();
    forall a, b | 0 <= a < b < |Cities|
      ensures Cities[a].id != Cities[b].id
    {
      FreshBelow(b);
    }
  }

  /** The cities at positions `lo` to `hi` are listed by the zone their `zone` field names. */
  predicate ListedFrom(lo: nat, hi: nat)
    requires hi <= |Cities|
  {
    forall k :: lo <= k < hi ==> Cities[k].zone in Zones && Cities[k].id in Zones[Cities[k].zone].cities
  }

  lemma ListedBelow11() ensures ListedFrom(0, 11) {}
  lemma ListedBelow21() ensures ListedFrom(11, 21) {}
  lemma ListedBelow31() ensures ListedFrom(21, 31) {}

  /** Every city's `zone` names a zone, and that zone lists the city. */
  lemma EveryCityListedByItsZone()
    ensures forall k :: 0 <= k < |Cities| ==>
      Cities[k].zone in Zones && Cities[k].id in Zones[Cities[k].zone].cities
  {
    ListedBelow11();
    ListedBelow21();
    ListedBelow31();
  }

  /** Zone `z` lists, in order, the ids of the cities at positions `ps`, all of them in zone `z`. */
  predicate PositionsMatch(z: Zone, ps: seq<nat>)
  {
    |ps| == |z.cities|
    && forall j :: 0 <= j < |ps| ==> ps[j] < |Cities| && Cities[ps[j]].id == z.cities[j] && Cities[ps[j]].zone == z.id
  }

  lemma CentralPositions() ensures PositionsMatch(Central, [0, 1, 3, 4, 6, 13, 14, 15, 16, 17, 18, 27]) {}
  lemma NorthwestPositions() ensures PositionsMatch(Northwest, [2, 12, 21]) {}
  lemma NortheastPositions() ensures PositionsMatch(Northeast, [7, 23, 26, 28]) {}
  lemma SouthwestPositions() ensures PositionsMatch(Southwest, [5, 8, 9, 11]) {}
  lemma SoutheastPositions() ensures PositionsMatch(Southeast, [19, 20, 24, 29]) {}
  lemma NorthPositions() ensures PositionsMatch(North, [10, 22, 25, 30]) {}

  /** The zone map holds exactly the six zones, each under its own id. */
  lemma ZoneKeys(z: string)
    requires z in Zones
    ensures Zones[z] in [Central, Northwest, Northeast, Southwest, Southeast, North]
    ensures Zones[z].id == z && |Zones[z].cities| > 0
  {
  }

  lemma ListedCityOf(zone: Zone, ps: seq<nat>, id: string)
    requires PositionsMatch(zone, ps) && id in zone.cities
    ensures exists k :: 0 <= k < |Cities| && Cities[k].id == id && Cities[k].zone == zone.id
  {
    var j :| 0 <= j < |zone.cities| && zone.cities[j] == id;
    assert Cities[ps[j]].id == id;
  }

  /** Each zone is keyed by its own id, and each city it lists is a city of that zone. */
  lemma EveryListedCityInZone(z: string, id: string)
    requires z in Zones && id in Zones[z].cities
    ensures exists k :: 0 <= k < |Cities| && Cities[k].id == id && Cities[k].zone == z
  {
    ZoneKeys(z);
    var zone := Zones[z];
    if zone == Central {
      CentralPositions();
      ListedCityOf(zone, [0, 1, 3, 4, 6, 13, 14, 15, 16, 17, 18, 27], id);
    } else if zone == Northwest {
      NorthwestPositions();
      ListedCityOf(zone, [2, 12, 21], id);
    } else if zone == Northeast {
      NortheastPositions();
      ListedCityOf(zone, [7, 23, 26, 28], id);
    } else if zone == Southwest {
      SouthwestPositions();
      ListedCityOf(zone, [5, 8, 9, 11], id);
    } else if zone == Southeast {
      SoutheastPositions();
      ListedCityOf(zone, [19, 20, 24, 29], id);
    } else {
      NorthPositions();
      ListedCityOf(zone, [10, 22, 25, 30], id);
    }
  }

  /** No id is listed by two zones: the listed cities are distinct and each has one zone. */
  lemma ZoneListsDisjoint(z1: string, z2: string, id: string)
    requires z1 in Zones && z2 in Zones && id in Zones[z1].cities && id in Zones[z2].cities
    ensures z1 == z2
  {
    EveryListedCityInZone(z1, id);
    EveryListedCityInZone(z2, id);
    CityIdsDistinct();
    var k1 :| 0 <= k1 < |Cities| && Cities[k1].id == id && Cities[k1].zone == z1;
    var k2 :| 0 <= k2 < |Cities| && Cities[k2].id == id && Cities[k2].zone == z2;
    assert k1 == k2;
  }

  /** The zone lists hold 31 entries between them, one per city. */
  lemma ZoneListsCoverCities()
    ensures |Central.cities| + |Northwest.cities| + |Northeast.cities| + |Southwest.cities|
      + |Southeast.cities| + |North.cities| == |Cities|
  {
  }

  // ---------------------------------------------------------------- filteredCities

  /** `city.label.toLowerCase().includes(query.toLowerCase())` — the query as typed, untrimmed. */
  predicate LabelMatches(c: City, query: string)
  {
    Contains(ToLower(c.name), ToLower(query))
  }

  function Matcher(query: string): City -> bool
  {
    c => LabelMatches(c, query)
  }

  /**
   * `filteredCities` over a city list (the page passes `Cities`): every city for blank text,
   * otherwise the matching ones in list order.
   */
  function FilteredCities(cities: seq<City>, query: string): (r: seq<City>)
    ensures Trim(query) == "" ==> r == cities
    ensures Sublist(r, cities)
  {
    if Trim(query) == "" then (SublistRefl(cities); cities)
    else
      FilterSublist(Matcher(query), cities);
      Filter(Matcher(query), cities)
  }

  /** White-space-only text lists all 31 cities. */
  lemma BlankQueryListsAll(query: string)
    requires AllSpace(query)
    ensures FilteredCities(Cities, query) == Cities && |FilteredCities(Cities, query)| == 31
  {
    TrimEmptyIff(query);
  }

  /** For other text a city is listed exactly when its lower-cased label contains the lower-cased query. */
  lemma FilteredMembership(cities: seq<City>, query: string, c: City)
    requires Trim(query) != ""
    ensures c in FilteredCities(cities, query) <==> c in cities && LabelMatches(c, query)
  {
    FilterMembership(Matcher(query), cities, c);
  }

  // ---------------------------------------------------------------- selection

  /** `GYEONGGI_CITIES.find(city => city.id === id)`: the first city with the id. */
  function FindCity(cs: seq<City>, id: string): (r: Option<City>)
    ensures r.Some? <==> exists k :: 0 <= k < |cs| && cs[k].id == id
    ensures r.Some? ==> r.value.id == id && r.value in cs
  {
    if cs == [] then None
    else if cs[0].id == id then Some(cs[0])
    else
      var rest := FindCity(cs[1..], id);
      assert forall k :: 1 <= k < |cs| ==> cs[k] == cs[1..][k - 1];
      rest
  }

  class GyeonggiPicker {
    var query: string
    var selectedId: Option<string>

    constructor ()
      ensures query == "" && selectedId.None?
    {
      query := "";
      selectedId := None;
    }

    /** `handleSelectCity`: remember the city's id and hand the same city to the callback. */
    method HandleSelectCity(city: City) returns (emitted: City)
      modifies this`selectedId
      ensures selectedId == Some(city.id) && emitted == city
    {
      selectedId := Some(city.id);
      emitted := city;
    }

    /** `handleZoneClick`: a known zone selects its first listed city; an unknown zone does nothing. */
    method HandleZoneClick(zoneId: string) returns (emitted: Option<City>)
      modifies this`selectedId
      ensures zoneId !in Zones ==> emitted.None? && selectedId == old(selectedId)
      ensures zoneId in Zones ==>
        emitted.Some? && emitted.value.id == Zones[zoneId].cities[0] && emitted.value.zone == zoneId
        && emitted.value in Cities && selectedId == Some(emitted.value.id)
    {
      emitted := None;
      if zoneId in Zones {
        ZoneKeys(zoneId);
        var first := Zones[zoneId].cities[0];
        EveryListedCityInZone(zoneId, first);
        var found := FindCity(Cities, first);
        var k :| 0 <= k < |Cities| && Cities[k] == found.value;
        var j :| 0 <= j < |Cities| && Cities[j].id == first && Cities[j].zone == zoneId;
        CityIdsDistinct();
        assert k == j;
        var city := HandleSelectCity(found.value);
        emitted := Some(city);
      }
    }
  }
}
