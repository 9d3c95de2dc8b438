/**
 * The map screen of `src/App.jsx`: its state, the name, category and viewport filters,
 * move detection, route results and the city enter/leave resets. React state updates
 * are field assignments; each effect is a method its trigger calls.
 */
module App {
  import opened Wrappers
  import opened Text
  import opened Seqs
  import opened Js
  import Geo
  import Directions
  import Stores

  type Store = Stores.Store

  // ---------------------------------------------------------------- filters

  /** `s.name && s.name.includes(query)` */
  predicate NameHas(s: Store, query: string)
  {
    Truthy(s.name) && Contains(s.name.s, query)
  }

  /** The search effect: every store for empty text, otherwise those whose name contains the trimmed text. */
  function SearchFilter(stores: seq<Store>, searchName: string): (r: seq<Store>)
    ensures searchName == "" ==> r == stores
    ensures Sublist(r, stores)
  {
    if searchName == "" then (SublistRefl(stores); stores)
    else
      var query := Trim(searchName);
      FilterSublist(s => NameHas(s, query), stores);
      Filter(s => NameHas(s, query), stores)
  }

  /** With non-empty text, a store is kept exactly when its name is truthy and contains the trimmed text. */
  lemma SearchMembership(stores: seq<Store>, searchName: string, s: Store)
    requires searchName != ""
    ensures s in SearchFilter(stores, searchName) <==> s in stores && NameHas(s, Trim(searchName))
  {
    var query := Trim(searchName);
    FilterMembership(x => NameHas(x, query), stores, s);
  }

  /** White-space-only text trims to `""`, which every name contains: the stores with a non-empty name remain. */
  lemma BlankSearchKeepsNamedStores(stores: seq<Store>, searchName: string, s: Store)
    requires searchName != "" && AllSpace(searchName)
    ensures s in SearchFilter(stores, searchName) <==> s in stores && Truthy(s.name)
  {
    TrimEmptyIff(searchName);
    SearchMembership(stores, searchName, s);
    if Truthy(s.name) {
      assert IsPrefix("", s.name.s);
    }
  }

  /** The category value that shows every store. */
  const All: string := "all"
  /** The two screens: the region picker and the city map. */
  const RegionMode: string := "region"
  const MapMode: string := "map"

  /** `finalShown`: the filtered list, narrowed to one category unless it is `all`. */
  function CategoryFilter(filtered: seq<Store>, category: string): (r: seq<Store>)
    ensures category == All ==> r == filtered
    ensures category != All ==> forall k :: 0 <= k < |r| ==> r[k].category == category
    ensures Sublist(r, filtered)
  {
    if category == All then (SublistRefl(filtered); filtered)
    else
      FilterSublist((s: Store) => s.category == category, filtered);
      Filter((s: Store) => s.category == category, filtered)
  }

  /** A store is kept exactly when it has the chosen category, and filtering twice changes nothing. */
  lemma CategoryMembership(filtered: seq<Store>, category: string, s: Store)
    requires category != All
    ensures s in CategoryFilter(filtered, category) <==> s in filtered && s.category == category
    ensures CategoryFilter(CategoryFilter(filtered, category), category) == CategoryFilter(filtered, category)
  {
    FilterMembership((x: Store) => x.category == category, filtered, s);
    FilterIdempotent((x: Store) => x.category == category, filtered);
  }

  /** The re-search test: inside the viewport, all four edges included. */
  predicate InViewport(s: Store, sw: Geo.LatLng, ne: Geo.LatLng)
  {
    s.lat >= sw.lat && s.lat <= ne.lat && s.lng >= sw.lng && s.lng <= ne.lng
  }

  function VisibleStores(stores: seq<Store>, sw: Geo.LatLng, ne: Geo.LatLng): (r: seq<Store>)
    ensures forall k :: 0 <= k < |r| ==> InViewport(r[k], sw, ne)
    ensures Sublist(r, stores)
  {
    FilterSublist(s => InViewport(s, sw, ne), stores);
    Filter(s => InViewport(s, sw, ne), stores)
  }

  /** Exactly the stores in the viewport are visible; a store on a corner counts. */
  lemma VisibleMembership(stores: seq<Store>, sw: Geo.LatLng, ne: Geo.LatLng, s: Store)
    ensures s in VisibleStores(stores, sw, ne) <==> s in stores && InViewport(s, sw, ne)
  {
    FilterMembership(x => InViewport(x, sw, ne), stores, s);
  }

  // ---------------------------------------------------------------- move detection

  /** The move threshold in degrees. */
  const MoveThreshold := 0.001

  function Abs(x: real): real
  {
    if x < 0.0 then -x else x
  }

  /** `latDiff > 0.001 || lngDiff > 0.001` */
  predicate Moved(previous: Geo.LatLng, current: Geo.LatLng)
  {
    Abs(current.lat - previous.lat) > MoveThreshold || Abs(current.lng - previous.lng) > MoveThreshold
  }

  /** Moving from a to b counts exactly when moving back from b to a does. */
  lemma MovedSymmetric(a: Geo.LatLng, b: Geo.LatLng)
    ensures Moved(a, b) <==> Moved(b, a)
  {
    assert Abs(b.lat - a.lat) == Abs(a.lat - b.lat);
    assert Abs(b.lng - a.lng) == Abs(a.lng - b.lng);
  }

  lemma StayingPutIsNotMoving(a: Geo.LatLng)
    ensures !Moved(a, a)
  {
  }

  // ---------------------------------------------------------------- routes

  /** One point of the drawn route: `new LatLng(path[i + 1], path[i])`, the latitude missing past the end. */
  datatype Vertex = Vertex(lat: Option<real>, lng: real)

  /**
   * The vertex loop: `[x0, y0, x1, y1, …]` becomes one point per pair, latitude `y_k`
   * and longitude `x_k`.
   */
  method DecodeVertexes(path: seq<real>) returns (points: seq<Vertex>)
    ensures |points| == (|path| + 1) / 2
    ensures forall k :: 0 <= k < |points| ==>
      points[k].lng == path[2 * k] && points[k].lat == (if 2 * k + 1 < |path| then Some(path[2 * k + 1]) else None)
    ensures |path| % 2 == 0 ==> |points| == |path| / 2 && forall k :: 0 <= k < |points| ==> points[k].lat.Some?
  {
    points := [];
    var i := 0;
    while i < |path|
      invariant 0 <= i <= |path| + 1 && i % 2 == 0
      invariant i < |path| + 1 || |path| % 2 == 1
      invariant |points| == i / 2
      invariant forall k :: 0 <= k < |points| ==>
        points[k].lng == path[2 * k] && points[k].lat == (if 2 * k + 1 < |path| then Some(path[2 * k + 1]) else None)
    {
      var lat := if i + 1 < |path| then Some(path[i + 1]) else None;
      points := points + [Vertex(lat, path[i])];
      i := i + 2;
    }
  }

  /** The inverse direction: points written out as `[lng, lat, lng, lat, …]`. */
  function Interleave(ps: seq<Geo.LatLng>): (r: seq<real>)
    ensures |r| == 2 * |ps|
    ensures forall k :: 0 <= k < |ps| ==> r[2 * k] == ps[k].lng && r[2 * k + 1] == ps[k].lat
  {
    if ps == [] then []
    else
      var rest := Interleave(ps[1..]);
      var r := [ps[0].lng, ps[0].lat] + rest;
      assert forall k :: 1 <= k < |ps| ==> r[2 * k] == rest[2 * (k - 1)] && r[2 * k + 1] == rest[2 * (k - 1) + 1];
      r
  }

  /** Decoding an interleaved path gives back its points, each with its latitude. */
  method DecodeInterleaved(ps: seq<Geo.LatLng>) returns (points: seq<Vertex>)
    ensures points == seq(|ps|, k requires 0 <= k < |ps| => Vertex(Some(ps[k].lat), ps[k].lng))
  {
    points := DecodeVertexes(Interleave(ps));
  }

  /** `summary.distance`/`summary.duration` of a found route, in metres and seconds. */
  datatype RouteOutcome =
    | RouteFound(distance: real, duration: real, vertexes: seq<real>)
    | RouteNotOk       // the callback's status is not OK
    | RouteThrew       // building the request threw

  datatype RouteInfo = RouteInfo(distance: string, duration: int, kind: string)

  const Unavailable := "계산 불가"

  /** The displayed kind: 도보 for walk, 대중교통 for transit, 자동차 for anything else. */
  function RouteLabel(routeType: string): (r: string)
    ensures r == "도보" || r == "대중교통" || r == "자동차"
    ensures r == "도보" <==> routeType == "walk"
    ensures r == "대중교통" <==> routeType == "transit"
  {
    if routeType == "walk" then "도보" else if routeType == "transit" then "대중교통" else "자동차"
  }

  /** `Math.round(distance / 1000 * 10) / 10`: kilometres to one decimal, within 50 metres. */
  function DistanceKm(meters: real): (r: real)
    ensures r - 0.05 <= meters / 1000.0 < r + 0.05
  {
    Directions.Round(meters / 100.0) as real / 10.0
  }

  /** `Math.round(duration / 60)`: whole minutes, within half a minute. */
  function DurationMinutes(seconds: real): (r: int)
    ensures r as real * 60.0 - 30.0 <= seconds < r as real * 60.0 + 30.0
  {
    Directions.Round(seconds / 60.0)
  }

  /** The `routeInfo` recorded for a route request: figures on success, `계산 불가` and 0 on either failure. */
  function RouteInfoFor(routeType: string, outcome: RouteOutcome): (r: RouteInfo)
    ensures r.kind == RouteLabel(routeType)
    ensures outcome.RouteFound? ==>
      r.distance == NumStr(DistanceKm(outcome.distance)) + "km" && r.duration == DurationMinutes(outcome.duration)
    ensures !outcome.RouteFound? ==> r.distance == Unavailable && r.duration == 0
  {
    match outcome
    case RouteFound(distance, duration, _) =>
      RouteInfo(NumStr(DistanceKm(distance)) + "km", DurationMinutes(duration), RouteLabel(routeType))
    case _ => RouteInfo(Unavailable, 0, RouteLabel(routeType))
  }

  /** Both failure paths record the same information. */
  lemma FailuresAgree(routeType: string)
    ensures RouteInfoFor(routeType, RouteNotOk) == RouteInfoFor(routeType, RouteThrew)
  {
  }

  /** `!selectedId`: nothing selected, or the empty id. */
  predicate IdSelected(id: Option<string>)
  {
    id.Some? && id.value != ""
  }

  // ---------------------------------------------------------------- the screen

  class MapScreen {
    var mode: string
    var selectedCity: string
    var category: string
    var searchName: string
    var selectedId: Option<string>
    var myPos: Option<Geo.LatLng>
    var hasCircle: bool
    var isNearbyEnabled: bool
    var showResearchButton: bool
    var currentMapCenter: Option<Geo.LatLng>
    var showRouteModal: bool
    var showRouteInfo: bool
    var routeInfo: Option<RouteInfo>
    /** The `useStores` hook: `stores` and `filtered`. */
    const storeState: Stores.StoreState

    /** `filtered` only ever narrows `stores`, keeping its order. */
    predicate Valid()
      reads storeState
    {
      Sublist(storeState.filtered, storeState.stores)
    }

    constructor ()
      ensures Valid() && fresh(storeState)
      ensures mode == RegionMode && selectedCity == "" && category == All && searchName == ""
      ensures selectedId.None? && myPos.None? && !hasCircle && !isNearbyEnabled
      ensures !showResearchButton && currentMapCenter.None? && !showRouteModal && !showRouteInfo && routeInfo.None?
      ensures storeState.stores == [] && storeState.filtered == []
    {
      mode := RegionMode;
      selectedCity := "";
      category := All;
      searchName := "";
      selectedId := None;
      myPos := None;
      hasCircle := false;
      isNearbyEnabled := false;
      showResearchButton := false;
      currentMapCenter := None;
      showRouteModal := false;
      showRouteInfo := false;
      routeInfo := None;
      storeState := new Stores.StoreState();
    }

    /** The list on the map and in the bottom sheet. */
    function FinalShown(): (r: seq<Store>)
      reads this`category, storeState
      requires Valid()
      ensures Sublist(r, storeState.stores)
      ensures category == All ==> r == storeState.filtered
    {
      var r := CategoryFilter(storeState.filtered, category);
      SublistTrans(r, storeState.filtered, storeState.stores);
      r
    }

    /** New search text, then the search effect replacing `filtered`. */
    method Search(text: string)
      modifies this`searchName, storeState`filtered
      ensures searchName == text
      ensures storeState.filtered == SearchFilter(storeState.stores, text)
      ensures Valid()
    {
      searchName := text;
      storeState.filtered := SearchFilter(storeState.stores, text);
    }

    method SelectCategory(c: string)
      requires Valid()
      modifies this`category
      ensures category == c && Valid()
      ensures FinalShown() == CategoryFilter(storeState.filtered, c)
    {
      category := c;
    }

    /** `handleMapMove`: raise the button on a move past the threshold, and always record the centre. */
    method HandleMapMove(center: Geo.LatLng)
      modifies this`showResearchButton, this`currentMapCenter
      ensures currentMapCenter == Some(center)
      ensures showResearchButton ==
        (old(showResearchButton) || (old(currentMapCenter).Some? && Moved(old(currentMapCenter).value, center)))
    {
      if currentMapCenter.Some? && Moved(currentMapCenter.value, center) {
        showResearchButton := true;
      }
      currentMapCenter := Some(center);
    }

    /**
     * `handleResearch`: with the map ready, the stores in the viewport replace `filtered`
     * and hide the button, but only when there are some.
     */
    method HandleResearch(mapReady: bool, sw: Geo.LatLng, ne: Geo.LatLng)
      requires Valid()
      modifies storeState`filtered, this`showResearchButton
      ensures Valid()
      ensures mapReady && |VisibleStores(storeState.stores, sw, ne)| > 0 ==>
        storeState.filtered == VisibleStores(storeState.stores, sw, ne) && !showResearchButton
      ensures !mapReady || |VisibleStores(storeState.stores, sw, ne)| == 0 ==>
        storeState.filtered == old(storeState.filtered) && showResearchButton == old(showResearchButton)
    {
      if !mapReady {
        return;
      }
      var visible := VisibleStores(storeState.stores, sw, ne);
      if |visible| > 0 {
        storeState.filtered := visible;
        showResearchButton := false;
      }
    }

    /** The marker effect's auto-selection: the first shown store when nothing is selected. */
    method AutoSelect()
      requires Valid()
      modifies this`selectedId
      ensures var shown := FinalShown();
        selectedId == (if |shown| > 0 && !IdSelected(old(selectedId)) then Some(shown[0].id) else old(selectedId))
      ensures |FinalShown()| > 0 && FinalShown()[0].id != "" ==> IdSelected(selectedId)
    {
      var shown := FinalShown();
      if |shown| > 0 && !IdSelected(selectedId) {
        selectedId := Some(shown[0].id);
      }
    }

    /**
     * `enterCity`: map mode, category `all`, no selection or button; then the city's stores
     * are loaded and the first one, if any, is selected. The new `stores` re-run the search
     * effect, so a search text left from an earlier city still narrows what is shown.
     */
    method EnterCity(city: string, pageOf: nat -> Stores.Page, number: string -> real,
                     photoFor: (string, real, real) -> string)
      returns (loaded: seq<Store>)
      modifies this`selectedCity, this`mode, this`category, this`selectedId, this`showResearchButton, this`searchName, storeState
      ensures Valid()
      ensures selectedCity == city && mode == MapMode && category == All && !showResearchButton
      ensures loaded == Stores.CityStores(pageOf, number, photoFor, Stores.CityPages)
      ensures storeState.stores == loaded && searchName == old(searchName)
      ensures storeState.filtered == SearchFilter(loaded, searchName) && FinalShown() == storeState.filtered
      ensures searchName == "" ==> FinalShown() == loaded
      ensures selectedId == (if |loaded| > 0 then Some(loaded[0].id) else None)
    {
      loaded := LoadCityStores(pageOf, number, photoFor);
      selectedCity := city;
      mode := MapMode;
      showResearchButton := false;
      selectedId := if |loaded| > 0 then Some(loaded[0].id) else None;
    }

    /** The category reset and store load of `enterCity`, followed by the search effect the new `stores` trigger. */
    method LoadCityStores(pageOf: nat -> Stores.Page, number: string -> real, photoFor: (string, real, real) -> string)
      returns (loaded: seq<Store>)
      modifies this`category, this`searchName, storeState
      ensures Valid() && category == All
      ensures loaded == Stores.CityStores(pageOf, number, photoFor, Stores.CityPages)
      ensures storeState.stores == loaded && searchName == old(searchName)
      ensures storeState.filtered == SearchFilter(loaded, searchName) && FinalShown() == storeState.filtered
    {
      category := All;
      loaded := storeState.LoadStoresByCity(pageOf, number, photoFor);
      Search(searchName);
    }

    /** `onBack`: back to the region picker with the city, selection, position, nearby flag and overlays cleared. */
    method OnBack()
      modifies this`mode, this`selectedCity, this`selectedId, this`isNearbyEnabled, this`myPos,
        this`showResearchButton, this`showRouteInfo, this`hasCircle
      ensures mode == RegionMode && selectedCity == "" && selectedId.None?
      ensures !isNearbyEnabled && myPos.None? && !showResearchButton && !showRouteInfo && !hasCircle
    {
      mode := RegionMode;
      selectedCity := "";
      selectedId := None;
      isNearbyEnabled := false;
      myPos := None;
      showResearchButton := false;
      showRouteInfo := false;
      if hasCircle {
        hasCircle := false;
      }
    }

    /** The route callback (or its `catch`): record the route information and close the modal. */
    method RecordRoute(routeType: string, outcome: RouteOutcome)
      modifies this`routeInfo, this`showRouteModal
      ensures routeInfo == Some(RouteInfoFor(routeType, outcome)) && !showRouteModal
    {
      routeInfo := Some(RouteInfoFor(routeType, outcome));
      showRouteModal := false;
    }
  }
}
