/**
 * The directions helpers of `src/utils/directions.js`: the UI-mode mapping, the Kakao
 * Map link builder and the speed-table time estimate.
 */
module Directions {
  import opened Js
  import opened Text

  /** `uiModeToApi`: 도보 → walk, 대중교통 → traffic, everything else → car. */
  function UiModeToApi(ui: string): (r: string)
    ensures r == "walk" || r == "traffic" || r == "car"
    ensures r == "walk" <==> ui == "도보"
    ensures r == "traffic" <==> ui == "대중교통"
  {
    match ui
    case "도보" => "walk"
    case "대중교통" => "traffic"
    case "자차" => "car"
    case _ => "car"
  }

  /** An API mode never contains a path or field separator. */
  lemma ApiModeLacksSeparators(ui: string)
    ensures '/' !in UiModeToApi(ui) && ',' !in UiModeToApi(ui)
  {
  }

  /** A waypoint: name, coordinates and an optional Kakao place id. */
  datatype Waypoint = Waypoint(name: string, lat: real, lng: real, placeId: Field)

  const LinkTo := "https://map.kakao.com/link/to/"
  const LinkBy := "https://map.kakao.com/link/by/"

  /** `${enc(w.name)},${w.lat},${w.lng}` */
  function Segment(w: Waypoint): string
  {
    Encode(w.name) + "," + (NumStr(w.lat) + "," + NumStr(w.lng))
  }

  /** The path after `/link/by/`: the mode, then the two segments. */
  function ByPath(mode: string, from: Waypoint, to: Waypoint): string
  {
    mode + "/" + (Segment(from) + "/" + Segment(to))
  }

  /**
   * `buildKakaoDirectionsUrl`: a destination-only link when `to.placeId` is truthy,
   * otherwise the coordinate link for the mode and both waypoints.
   */
  function BuildKakaoDirectionsUrl(from: Waypoint, to: Waypoint, mode: string): (r: string)
    ensures Truthy(to.placeId) ==> r == LinkTo + Encode(to.placeId.s)
    ensures !Truthy(to.placeId) ==> r == LinkBy + ByPath(mode, from, to)
  {
    if Truthy(to.placeId) then LinkTo + Encode(to.placeId.s)
    else LinkBy + ByPath(mode, from, to)
  }

  /** With a place id the link depends on nothing but that id. */
  lemma PlaceIdLinkIgnoresOrigin(from1: Waypoint, from2: Waypoint, to: Waypoint, mode1: string, mode2: string)
    requires Truthy(to.placeId)
    ensures BuildKakaoDirectionsUrl(from1, to, mode1) == BuildKakaoDirectionsUrl(from2, to, mode2)
  {
  }

  /** A segment splits on `,` into the encoded name and the two coordinates. */
  lemma SegmentFields(w: Waypoint)
    ensures SplitOn(Segment(w), ",") == [Encode(w.name), NumStr(w.lat), NumStr(w.lng)]
    ensures '/' !in Segment(w)
  {
    EncodeHasNoDelimiter(w.name);
    NumStrHasNoComma(w.lat);
    NumStrHasNoComma(w.lng);
    SplitPrefixPiece(Encode(w.name), ',', NumStr(w.lat) + "," + NumStr(w.lng));
    SplitPrefixPiece(NumStr(w.lat), ',', NumStr(w.lng));
    SplitNoSep(NumStr(w.lng), ',');
  }

  /**
   * Encoded names and numbers contain no `/` or `,`, so the coordinate link splits back
   * into its mode, both names and all four coordinates.
   */
  lemma CoordinateLinkRecoversFields(from: Waypoint, to: Waypoint, mode: string)
    requires !Truthy(to.placeId)
    requires '/' !in mode
    ensures var r := BuildKakaoDirectionsUrl(from, to, mode);
      IsPrefix(LinkBy, r) && r[|LinkBy|..] == ByPath(mode, from, to)
    ensures var pieces := SplitOn(ByPath(mode, from, to), "/");
      pieces == [mode, Segment(from), Segment(to)]
      && SplitOn(pieces[1], ",") == [Encode(from.name), NumStr(from.lat), NumStr(from.lng)]
      && SplitOn(pieces[2], ",") == [Encode(to.name), NumStr(to.lat), NumStr(to.lng)]
  {
    SegmentFields(from);
    SegmentFields(to);
    SplitPrefixPiece(mode, '/', Segment(from) + "/" + Segment(to));
    SplitPrefixPiece(Segment(from), '/', Segment(to));
    SplitNoSep(Segment(to), '/');
  }

  // ---------------------------------------------------------------- calculateEstimatedTime

  /** `speeds[mode] || speeds.car`, in metres per minute. */
  function Speed(mode: string): (r: real)
    ensures r == 80.0 || r == 400.0 || r == 600.0
    ensures mode == "walk" <==> r == 80.0
    ensures mode == "traffic" <==> r == 400.0
  {
    match mode
    case "walk" => 80.0
    case "traffic" => 400.0
    case "car" => 600.0
    case _ => 600.0
  }

  /** `Math.round`: the nearest integer, halves rounded up. */
  function Round(x: real): (r: int)
    ensures r as real - 0.5 <= x < r as real + 0.5
  {
    (x + 0.5).Floor
  }

  lemma RoundMonotone(x: real, y: real)
    requires x <= y
    ensures Round(x) <= Round(y)
  {
  }

  /**
   * `calculateEstimatedTime`: minutes, `Math.round(distance / speed)`, the whole number of
   * minutes nearest to the travel time, never negative for a non-negative distance.
   */
  function EstimatedTime(distance: real, mode: string): (r: int)
    ensures r as real - 0.5 <= distance / Speed(mode) < r as real + 0.5
    ensures distance >= 0.0 ==> r >= 0
  {
    Round(distance / Speed(mode))
  }

  /** A longer distance never takes less time in the same mode. */
  lemma EstimatedTimeMonotone(d1: real, d2: real, mode: string)
    requires d1 <= d2
    ensures EstimatedTime(d1, mode) <= EstimatedTime(d2, mode)
  {
    var s := Speed(mode);
    assert d1 / s <= d2 / s;
    RoundMonotone(d1 / s, d2 / s);
  }

  /** Over the same non-negative distance, walking takes longest and driving least. */
  lemma WalkSlowestCarFastest(d: real)
    requires d >= 0.0
    ensures EstimatedTime(d, "walk") >= EstimatedTime(d, "traffic") >= EstimatedTime(d, "car")
  {
    assert d / 80.0 >= d / 400.0 >= d / 600.0;
    RoundMonotone(d / 400.0, d / 80.0);
    RoundMonotone(d / 600.0, d / 400.0);
  }
}
