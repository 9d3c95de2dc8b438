/**
 * `src/utils/directionsLink.ts`: the TypeScript variant of the Kakao link builder, the
 * location fallback and the optional server-side route lookup.
 */
module DirectionsLink {
  import opened Wrappers
  import opened Js
  import opened Text
  import Directions

  /** A waypoint of the TypeScript helpers: no place id. */
  datatype Waypoint = Waypoint(name: string, lat: real, lng: real)

  /** Every coordinate link is exactly the one the JavaScript builder makes without a place id. */
  function BuildKakaoDirectionsUrl(mode: string, from: Waypoint, to: Waypoint): (r: string)
    ensures r == Directions.BuildKakaoDirectionsUrl(AsJs(from), AsJs(to), mode)
  {
    Directions.LinkBy + (mode + "/" + (Directions.Segment(AsJs(from)) + "/" + Directions.Segment(AsJs(to))))
  }

  /** The same waypoint in the JavaScript helper's shape, with no place id. */
  function AsJs(w: Waypoint): Directions.Waypoint
  {
    Directions.Waypoint(w.name, w.lat, w.lng, Undefined)
  }

  /** `uiModeToApi` is the same mapping in both helpers. */
  function UiModeToApi(ui: string): (r: string)
    ensures r == Directions.UiModeToApi(ui)
  {
    match ui
    case "도보" => "walk"
    case "대중교통" => "traffic"
    case "자차" => "car"
    case _ => "car"
  }

  // ---------------------------------------------------------------- getUserLocOrFallback

  /** What the browser's geolocation reported. */
  datatype GeoOutcome = NoGeolocation | Position(latitude: real, longitude: real) | PositionError

  const MyLocation := "내 위치"

  function GetUserLocOrFallback(fallback: Waypoint, g: GeoOutcome): (r: Waypoint)
    ensures g.Position? ==> r == Waypoint(MyLocation, g.latitude, g.longitude)
    ensures !g.Position? ==> r == fallback
  {
    match g
    case Position(lat, lng) => Waypoint(MyLocation, lat, lng)
    case _ => fallback
  }

  // ---------------------------------------------------------------- getServerDirections

  /** A parsed JSON value, with `undefined` for a missing property. */
  datatype JsValue =
    | Undef
    | JNull
    | JBool(b: bool)
    | JNumber(n: real)
    | JString(s: string)
    | JArray(items: seq<JsValue>)
    | JObject(props: map<string, JsValue>)

  predicate IsTruthy(v: JsValue)
  {
    match v
    case Undef => false
    case JNull => false
    case JBool(b) => b
    case JNumber(n) => n != 0.0
    case JString(s) => s != ""
    case _ => true
  }

  /** `v?.key`: a property of an object, `undefined` for anything else. */
  function Member(v: JsValue, key: string): JsValue
  {
    match v
    case JObject(props) => if key in props then props[key] else Undef
    case _ => Undef
  }

  /** `v?.[0]`: the first element of an array (or property `"0"` of an object). */
  function First(v: JsValue): JsValue
  {
    match v
    case JArray(items) => if |items| > 0 then items[0] else Undef
    case JObject(props) => if "0" in props then props["0"] else Undef
    case _ => Undef
  }

  /** `data.routes?.[0]?.sections?.[0]?.roads?.[0]?.vertexes` */
  function VertexPath(data: JsValue): JsValue
  {
    Member(First(Member(First(Member(First(Member(data, "routes")), "sections")), "roads")), "vertexes")
  }

  datatype Options = Options(useServerDirections: Option<bool>, apiEndpoint: Field)

  const DefaultEndpoint := "/api/directions"

  /** `${lng},${lat}` — longitude first. */
  function LngLat(w: Waypoint): string
  {
    NumStr(w.lng) + "," + NumStr(w.lat)
  }

  function QueryString(from: Waypoint, to: Waypoint): string
  {
    "origin=" + LngLat(from) + "&" + ("destination=" + LngLat(to))
  }

  /** The request URL: the endpoint (or the default), `?`, then origin and destination. */
  function RequestUrl(from: Waypoint, to: Waypoint, endpoint: Field): (r: string)
    ensures Truthy(endpoint) ==> r == endpoint.s + "?" + QueryString(from, to)
    ensures !Truthy(endpoint) ==> r == DefaultEndpoint + "?" + QueryString(from, to)
  {
    (if Truthy(endpoint) then endpoint.s else DefaultEndpoint) + "?" + QueryString(from, to)
  }

  /** The fetch step: a thrown error, a non-ok status, or a parsed body. */
  datatype FetchOutcome = FetchFailed | NotOk(status: int) | Body(data: JsValue)

  /** The URL requested, if any, and the route vertices returned (`None` for `null`). */
  datatype ServerDirections = ServerDirections(requested: Option<string>, vertexes: Option<JsValue>)

  /**
   * `getServerDirections`: nothing is requested unless `useServerDirections` is true; then
   * the vertex array of the first road of the first section of the first route, or `null`.
   * Reading `routes` of a `null` body throws and is caught like any other error.
   */
  function GetServerDirections(from: Waypoint, to: Waypoint, options: Options, fetch: string -> FetchOutcome)
    : (r: ServerDirections)
    ensures !(options.useServerDirections == Some(true)) ==> r == ServerDirections(None, None)
    ensures options.useServerDirections == Some(true) ==>
      r.requested == Some(RequestUrl(from, to, options.apiEndpoint))
    ensures r.vertexes.Some? <==>
      (options.useServerDirections == Some(true) && fetch(RequestUrl(from, to, options.apiEndpoint)).Body?
       && IsTruthy(VertexPath(fetch(RequestUrl(from, to, options.apiEndpoint)).data)))
    ensures r.vertexes.Some? ==> r.vertexes.value == VertexPath(fetch(r.requested.value).data)
  {
    if options.useServerDirections != Some(true) then ServerDirections(None, None)
    else
      var url := RequestUrl(from, to, options.apiEndpoint);
      match fetch(url)
      case FetchFailed => ServerDirections(Some(url), None)
      case NotOk(_) => ServerDirections(Some(url), None)
      case Body(data) =>
        if data.Undef? || data.JNull? then ServerDirections(Some(url), None)
        else
          var v := VertexPath(data);
          ServerDirections(Some(url), if IsTruthy(v) then Some(v) else None)
  }

  /** A body of the documented shape yields its vertex array. */
  lemma DocumentedShapeYieldsVertexes(vertexes: seq<JsValue>)
    ensures var road := JObject(map["vertexes" := JArray(vertexes)]);
      var section := JObject(map["roads" := JArray([road])]);
      var route := JObject(map["sections" := JArray([section])]);
      VertexPath(JObject(map["routes" := JArray([route])])) == JArray(vertexes)
  {
  }

  /** An empty `routes` list gives `null`, as does any missing level. */
  lemma NoRoutesYieldsNull(from: Waypoint, to: Waypoint, options: Options, fetch: string -> FetchOutcome)
    requires fetch(RequestUrl(from, to, options.apiEndpoint)) == Body(JObject(map["routes" := JArray([])]))
    ensures GetServerDirections(from, to, options, fetch).vertexes.None?
  {
  }

  /** The query string splits back into origin and destination, each longitude then latitude. */
  lemma QueryStringRecoversCoordinates(from: Waypoint, to: Waypoint)
    ensures var pieces := SplitOn(QueryString(from, to), "&");
      pieces == ["origin=" + LngLat(from), "destination=" + LngLat(to)]
      && SplitOn(LngLat(from), ",") == [NumStr(from.lng), NumStr(from.lat)]
      && SplitOn(LngLat(to), ",") == [NumStr(to.lng), NumStr(to.lat)]
  {
    NumStrHasNoComma(from.lng);
    NumStrHasNoComma(from.lat);
    NumStrHasNoComma(to.lng);
    NumStrHasNoComma(to.lat);
    var o := "origin=" + LngLat(from);
    var d := "destination=" + LngLat(to);
    assert '&' !in "origin=" && '&' !in "destination=";
    assert '&' !in LngLat(from) && '&' !in LngLat(to);
    assert '&' !in o;
    assert '&' !in d;
    SplitPrefixPiece(o, '&', d);
    SplitNoSep(d, '&');
    LngLatSplits(from);
    LngLatSplits(to);
  }

  /** One coordinate pair splits at its comma into longitude and latitude. */
  lemma LngLatSplits(w: Waypoint)
    ensures SplitOn(LngLat(w), ",") == [NumStr(w.lng), NumStr(w.lat)]
  {
    NumStrHasNoComma(w.lng);
    NumStrHasNoComma(w.lat);
    SplitPrefixPiece(NumStr(w.lng), ',', NumStr(w.lat));
    SplitNoSep(NumStr(w.lat), ',');
  }

  lemma QueryStringLacksQuestionMark(from: Waypoint, to: Waypoint)
    ensures '?' !in QueryString(from, to)
  {
    NumStrHasNoComma(from.lng);
    NumStrHasNoComma(from.lat);
    NumStrHasNoComma(to.lng);
    NumStrHasNoComma(to.lat);
    assert '?' !in "origin=";
    assert '?' !in "destination=";
    assert '?' !in LngLat(from) && '?' !in LngLat(to);
    assert '?' !in "origin=" + LngLat(from) + "&";
    assert '?' !in "destination=" + LngLat(to);
  }

  /** With the default endpoint the URL splits on `?` into the endpoint and the query string. */
  lemma DefaultRequestUrlShape(from: Waypoint, to: Waypoint, endpoint: Field)
    requires !Truthy(endpoint)
    ensures SplitOn(RequestUrl(from, to, endpoint), "?") == [DefaultEndpoint, QueryString(from, to)]
  {
    QueryStringLacksQuestionMark(from, to);
    assert '?' !in DefaultEndpoint;
    SplitPrefixPiece(DefaultEndpoint, '?', QueryString(from, to));
    SplitNoSep(QueryString(from, to), '?');
  }
}
